# hw3-checker: recorder and scoring server, modelled in Dafny

The repository grades a homework web service that proxies Central Bank
currency data and keeps an asset ledger. It has two tools:

- the **recorder** (`record_responses.py`) runs a fixed request script and
  the two fixture-parsing functions against a reference solution, and
  writes the results as the golden trace `expected.json`;
- the **scoring server** (`server.py`) runs the same parse functions and replays the
  trace's requests against a submitted solution. It builds a report: one
  entry per parse function and one entry per request. Each entry is a
  success (actual value only), a mismatch (expected and actual) or an error
  (the formatted exception).

The model treats the submitted solution as an opaque oracle (`Harness.Submission`).
Each parse function is a function from fixture text to a returned JSON
value or an exception. `get(i, url)` is what the i-th GET request yields:
a status with the body text, or an exception. JSON decoding of a body is
a parameter `decode: string -> Option<Json>`, and None means the text is
not JSON.

Python's `==` on decoded JSON values is modelled as `JsonValue.PyEq`, not as
structural equality. The difference is that `bool` compares as an integer
(`True == 1`), and integers and floats compare by value. Numbers are
`real`.

`server.py` compares with plain `==`: there is no numeric tolerance and
no fault-injection request, and only the recorded trace is replayed.

Files: `wrappers.dfy` (Option), `json.dfy` (JSON values, Python equality),
`harness.dfy` (oracle, body decoding, trace document), `server.dfy`
(scoring server), `record_responses.dfy` (recorder), `round_trip.dfy` (the two
together).

## Model

| member | source | states |
|---|---|---|
| JsonValue.NumericValue | server.py:88 | the value a boolean or number takes in Python `==`: `True` is 1, `False` is 0, a number is itself; other kinds have none |
| JsonValue.PyEq | server.py:88 | Python `==` on decoded values: equal values are both numeric or both not, and then of the same kind; a string equals exactly itself |
| JsonValue.PyEqReflexive | server.py:88 | every decoded JSON value equals itself under Python `==`, at any nesting depth |
| JsonValue.PyEqSymmetric | server.py:122 | `a == b` and `b == a` agree, so writing `actual != expected` instead of the other order changes nothing |
| JsonValue.BoolEqualsNumber | server.py:88 | the comparison is coarser than structural equality: a boolean equals a number exactly when the number is 1 for `True` or 0 for `False`, although the two values are structurally different; also `[False] == [0]` |
| Harness.DecodeBody | server.py:83-86 | a body is the JSON-decoded value when decoding succeeds, and the raw text as a string otherwise |
| Harness.TraceDocument | record_responses.py:45-58 | the written trace has exactly the keys `cbr_currency_base_daily`, `cbr_key_indicators` and `requests`; both parse outputs are stored unchanged; entry i of `requests` is the `[url, status, body]` list of triple i |
| Harness.ReadEncodedTriple | record_responses.py:54-56 | the `[url, status_code, body]` list written for a triple reads back as that triple |
| Harness.ReadTriple | server.py:78 | unpacking `(url, status_code, expected_response)`: a triple is read only from a list of exactly that shape, and reading inverts the encoding |
| Harness.ReadTrace | server.py:75-78 | reading the loaded document takes the two parse outputs unchanged from their keys, and reads `requests` as a list with one triple per entry, in order, each entry unpacked as `(url, status_code, expected_response)` |
| Harness.ReadTraceDocument | record_responses.py:58-61 | a trace written as a document reads back as the same trace |
| Server.ReplaceNewlines | server.py:113 | the output of `replace("\n", "</br>")` contains no newline and is no shorter than the input |
| Server.ReplaceNewlinesAppend | server.py:113 | the rewrite distributes over concatenation, so each newline is replaced where it stands |
| Server.ReplaceNewlinesKeeps | server.py:113 | text without newlines is left unchanged |
| Server.FormatError | server.py:112-113 | the error text is the rewritten message, `</br>`, then the rewritten traceback; it has no newline and is never empty |
| Server.TestParse | server.py:115-135 | a one-key map under the expected key holding exactly one of: `{expected, actual}` if the result differs, `{error}` with the formatted error if the function raised, `{actual}` if the result is equal |
| Server.ParseAgainstItself | server.py:122-135 | testing a parse function against the value it returned reports `{actual}` alone |
| Server.Differs | server.py:88 | the mismatch test: differing statuses always mismatch; equal statuses other than 200, or a string expected body, never do; at 200 with a non-string expected body it mismatches exactly when the bodies are unequal |
| Server.GradeRequest | server.py:79-107 | the verdict on one triple: a raise gives an entry of only url and formatted error; a status difference gives a mismatch carrying both actual and expected; equal statuses other than 200 pass; at 200 a string expected body passes; at 200 a non-string expected body is a mismatch exactly when the bodies are unequal |
| Server.GradeRequests | server.py:75-109 | one entry per recorded triple, in trace order: entry i carries triple i's url and is the verdict on triple i against the i-th request issued |
| Server.Grade | server.py:71-110 | the report holds exactly the two parse entries (each the `test_parse` result for its function) and one request entry per triple, entry i being the verdict on triple i against the i-th request |
| Server.TestSolution | server.py:71-110 | the verdict loop builds exactly the report `Grade` describes: entry i is the verdict on triple i against the i-th request, and a raise does not stop the loop |
| RecordResponses.RequestScript | record_responses.py:10-25 | the script has fourteen requests; the same asset is added twice in a row, and the asset list is fetched before the adds, after them and after the cleanup |
| RecordResponses.RecordedTriples | record_responses.py:50-56 | one triple per script entry, in script order: its first element is the request URL, its second the response status copied unchanged, its third the decoded body |
| RecordResponses.RecordRequests | record_responses.py:50-57 | the request loop yields a list exactly when no request raises, and then entry i is the encoded triple recorded for script entry i |
| RecordResponses.Recording | record_responses.py:45-58 | recording completes exactly when no parse call and no request raises; then it holds one triple per script entry in script order, with the request URL, the status copied unchanged and the decoded body, plus both parse outputs unchanged |
| RecordResponses.Record | record_responses.py:45-58 | the recording loop returns a document exactly when recording completes, and then it is the trace document of `Recording` |
| RoundTrip.GradeAgainstOwnResponse | server.py:83-105 | a request graded against the very response its triple was recorded from (same status, body decoded the same way) is an actual-only success carrying the recorded status and body, whatever the status and body are |
| RoundTrip.RecordThenGrade | record_responses.py:51-56 | grading a solution against the trace recorded from the same outcomes gives only successes: each request entry is the actual-only record with the recorded status and body, and each parse entry is `{actual}` |
| RoundTrip.RecordWriteReadGrade | record_responses.py:58-61 | the same holds through `expected.json`: the written document reads back, and grading against it reports no mismatch and no error |

## Left out

- Loading the solution with `importlib`, and failures while loading it: the solution is the oracle `Submission`.
- The Flask application: the `/status`, `/` and `/score` routes, templates, upload saving and uuid file names. These are web glue and I/O.
- Reading the fixture files and `expected.json`, writing `expected.json`, and `load_dotenv`: these are file I/O. The fixtures are a `Fixtures` parameter. The trace is a value, and `ReadTrace` models only the lookups the scoring server performs on it.
- The Flask test client and charset decoding: a body that cannot be decoded counts as a raised request.
- The internals of `json.loads`: it is the abstract `decode` parameter.
- The text of `str(exception)` and `traceback.format_exc()`: these are arbitrary strings given to `FormatError`.
- NaN and the infinities, which `json.loads` accepts: a `real` cannot hold them.
- Parse results that are not plain JSON values, such as a tuple. A tuple becomes a list in `expected.json` and would then compare unequal. Parse results are modelled as JSON values.
- ReadTrace: returns None for any document not shaped as the recorder writes it. The scoring server would handle some of those differently. For example, a missing parse key is caught inside `test_parse` and reported as an error entry.
- Tolerant numeric comparison, key-set comparison and fault-injection requests: neither `server.py` nor `record_responses.py` has them.
- The submitted web service's own behaviour (currency parsing, the asset ledger): it is an external collaborator.
