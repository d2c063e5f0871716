/**
 * The runner's execution events and the constructors that derive them from
 * a schema, an endpoint, an exception or a result set.
 */
module RunnerEvents {
  import opened Basics
  import opened Models
  import Decimal

  /** An endpoint's test status. */
  datatype Status = Success | Failure | Error

  /** The schema properties `Initialized.from_schema` reads. */
  datatype Schema = Schema(endpointsCount: int, location: Option<string>, baseUrl: Option<string>, verboseName: string)

  /** Runner is initialized: what the schema says about the run, and when it started. */
  datatype Initialized = Initialized(
    endpointsCount: int,
    location: Option<string>,
    baseUrl: Option<string>,
    specificationName: string,
    startTime: real)

  /** `Initialized.from_schema`; `startTime` is the `time.monotonic()` reading taken at construction. */
  function InitializedFromSchema(schema: Schema, startTime: real): (r: Initialized)
    ensures r.endpointsCount == schema.endpointsCount
    ensures r.location == schema.location && r.baseUrl == schema.baseUrl
    ensures r.specificationName == schema.verboseName
    ensures r.startTime == startTime
  {
    Initialized(schema.endpointsCount, schema.location, schema.baseUrl, schema.verboseName, startTime)
  }

  /** Happens before each examined endpoint. */
  datatype BeforeExecution = BeforeExecution(httpMethod: string, path: string)

  /** `BeforeExecution.from_endpoint`: the event records the endpoint's identity and nothing else. */
  function BeforeExecutionFromEndpoint(e: Endpoint): (r: BeforeExecution)
    ensures r.httpMethod == e.httpMethod && r.path == e.path
  {
    BeforeExecution(e.httpMethod, e.path)
  }

  /** Two endpoints give the same event exactly when they share method and path. */
  lemma BeforeExecutionIdentifiesEndpoint(e1: Endpoint, e2: Endpoint)
    ensures BeforeExecutionFromEndpoint(e1) == BeforeExecutionFromEndpoint(e2)
        <==> e1.httpMethod == e2.httpMethod && e1.path == e2.path
  {
  }

  /** Happens after each examined endpoint, with the captured Hypothesis output. */
  datatype AfterExecution = AfterExecution(status: Status, hypothesisOutput: seq<string>)

  /** `AfterExecution(status=...)` with `hypothesis_output` left at its default. */
  function NewAfterExecution(status: Status): (r: AfterExecution)
    ensures r.status == status && r.hypothesisOutput == []
  {
    AfterExecution(status, [])
  }

  /** The exceptions `InternalError.from_exc` tells apart. */
  datatype RunnerException =
    | HTTPError(statusCode: int, url: string)  // schemathesis' HTTPError: the response's status code and the schema URL
    | ConnectionError(requestUrl: string)      // requests' ConnectionError: the URL of the failed request
    | OtherException(kind: string)

  /** An error that happened inside the runner. */
  datatype InternalError = InternalError(message: string, exception: Option<string>)

  const NOT_FOUND_PREFIX := "Schema was not found at "
  const BAD_STATUS_PREFIX := "Failed to load schema, code "
  const BAD_STATUS_INFIX := " was returned from "
  const CONNECTION_PREFIX := "Failed to load schema from "
  const INTERNAL_MESSAGE := "An internal error happened during a test run"

  /**
   * `InternalError.from_exc`. HTTPError is checked first and never carries a
   * traceback; everything else carries `format_exception(exc)`.
   */
  function InternalErrorFromExc(exc: RunnerException, formatException: RunnerException -> string): (r: InternalError)
    ensures r.exception.None? <==> exc.HTTPError?
    ensures r.exception.Some? ==> r.exception.value == formatException(exc)
    ensures exc.HTTPError? && exc.statusCode == 404 ==> r.message == NOT_FOUND_PREFIX + exc.url
    ensures exc.HTTPError? && exc.statusCode != 404 ==>
      r.message == BAD_STATUS_PREFIX + Decimal.IntToString(exc.statusCode) + BAD_STATUS_INFIX + exc.url
    ensures exc.ConnectionError? ==> r.message == CONNECTION_PREFIX + exc.requestUrl
    ensures exc.OtherException? ==> r.message == INTERNAL_MESSAGE
  {
    match exc
    case HTTPError(code, url) =>
      var message :=
        if code == 404 then NOT_FOUND_PREFIX + url
        else BAD_STATUS_PREFIX + Decimal.IntToString(code) + BAD_STATUS_INFIX + url;
      InternalError(message, None)
    case ConnectionError(requestUrl) =>
      InternalError(CONNECTION_PREFIX + requestUrl, Some(formatException(exc)))
    case OtherException(_) =>
      InternalError(INTERNAL_MESSAGE, Some(formatException(exc)))
  }

  /** The four branches of `from_exc`. */
  datatype ErrorKind = SchemaNotFound | BadStatus | ConnectionFailed | Internal

  function KindOf(exc: RunnerException): ErrorKind
  {
    match exc
    case HTTPError(code, _) => if code == 404 then SchemaNotFound else BadStatus
    case ConnectionError(_) => ConnectionFailed
    case OtherException(_) => Internal
  }

  /** The message alone tells which branch produced it. */
  lemma MessageDeterminesKind(x: RunnerException, y: RunnerException, fmt: RunnerException -> string)
    requires InternalErrorFromExc(x, fmt).message == InternalErrorFromExc(y, fmt).message
    ensures KindOf(x) == KindOf(y)
  {
    var m := InternalErrorFromExc(x, fmt).message;
    // the branches' messages differ at position 0 or at position 21
    assert |m| >= 22;
    MessageMarks(x, fmt);
    MessageMarks(y, fmt);
  }

  /** The characters that set the four message shapes apart. */
  lemma MessageMarks(x: RunnerException, fmt: RunnerException -> string)
    ensures var m := InternalErrorFromExc(x, fmt).message;
            && |m| >= 22
            && (KindOf(x) == SchemaNotFound <==> m[0] == 'S')
            && (KindOf(x) == Internal <==> m[0] == 'A')
            && (KindOf(x) == BadStatus <==> m[0] == 'F' && m[21] == ',')
            && (KindOf(x) == ConnectionFailed <==> m[0] == 'F' && m[21] == ' ')
  {
    var m := InternalErrorFromExc(x, fmt).message;
    PrefixLetters();
    match x
    case HTTPError(code, url) =>
      if code == 404 {
        PrefixMarks(NOT_FOUND_PREFIX, url);
      } else {
        var rest := Decimal.IntToString(code) + BAD_STATUS_INFIX + url;
        assert m == BAD_STATUS_PREFIX + rest;
        PrefixMarks(BAD_STATUS_PREFIX, rest);
      }
    case ConnectionError(u) =>
      PrefixMarks(CONNECTION_PREFIX, u);
    case OtherException(_) =>
      PrefixMarks(INTERNAL_MESSAGE, []);
  }

  lemma PrefixMarks(prefix: string, rest: string)
    requires |prefix| >= 22
    ensures |prefix + rest| >= 22 && (prefix + rest)[0] == prefix[0] && (prefix + rest)[21] == prefix[21]
  {
  }

  /** The first and twenty-second characters of the four message prefixes. */
  lemma PrefixLetters()
    ensures |NOT_FOUND_PREFIX| >= 22 && NOT_FOUND_PREFIX[0] == 'S'
    ensures |BAD_STATUS_PREFIX| >= 22 && BAD_STATUS_PREFIX[0] == 'F' && BAD_STATUS_PREFIX[21] == ','
    ensures |CONNECTION_PREFIX| >= 22 && CONNECTION_PREFIX[0] == 'F' && CONNECTION_PREFIX[21] == ' '
    ensures |INTERNAL_MESSAGE| >= 22 && INTERNAL_MESSAGE[0] == 'A'
  {
  }

  /**
   * For a status other than 404 the message identifies the status code and
   * the URL: the rendered code contains no space, so it ends where
   * " was returned from " begins.
   */
  lemma BadStatusMessageInjective(c1: int, u1: string, c2: int, u2: string, fmt: RunnerException -> string)
    requires c1 != 404 && c2 != 404
    requires InternalErrorFromExc(HTTPError(c1, u1), fmt).message == InternalErrorFromExc(HTTPError(c2, u2), fmt).message
    ensures c1 == c2 && u1 == u2
  {
    var s1, s2 := Decimal.IntToString(c1), Decimal.IntToString(c2);
    var rest := "was returned from ";
    BadStatusMessageShape(c1, u1, fmt);
    BadStatusMessageShape(c2, u2, fmt);
    CancelPrefix(BAD_STATUS_PREFIX, s1 + [' '] + (rest + u1), s2 + [' '] + (rest + u2));
    NoSpaceInNumber(c1);
    NoSpaceInNumber(c2);
    SplitAtSeparator(s1, rest + u1, s2, rest + u2, ' ');
    Decimal.IntToStringInjective(c1, c2);
    CancelPrefix(rest, u1, u2);
  }

  /** The bad-status message with its parts grouped around the space that ends the code. */
  lemma BadStatusMessageShape(code: int, url: string, fmt: RunnerException -> string)
    requires code != 404
    ensures InternalErrorFromExc(HTTPError(code, url), fmt).message
         == BAD_STATUS_PREFIX + (Decimal.IntToString(code) + [' '] + ("was returned from " + url))
  {
    var s := Decimal.IntToString(code);
    var rest := "was returned from ";
    InfixStartsWithSpace();
    Regroup(BAD_STATUS_PREFIX, s, BAD_STATUS_INFIX, url, ' ', rest);
  }

  lemma InfixStartsWithSpace()
    ensures BAD_STATUS_INFIX == [' '] + "was returned from "
  {
  }

  lemma Regroup<T>(p: seq<T>, s: seq<T>, i: seq<T>, u: seq<T>, sep: T, rest: seq<T>)
    requires i == [sep] + rest
    ensures p + s + i + u == p + (s + [sep] + (rest + u))
  {
  }

  lemma NoSpaceInNumber(c: int)
    ensures ' ' !in Decimal.IntToString(c)
  {
    var s := Decimal.IntToString(c);
    forall k | 0 <= k < |s| ensures s[k] != ' ' {
      if k > 0 || c >= 0 {
        assert Decimal.IsDigit((if c < 0 then s[1..] else s)[if c < 0 then k - 1 else k]);
      }
    }
  }

  /** The result set the runner accumulates; its iteration yields `results` in order. */
  datatype TestResultSet<R> = TestResultSet(
    results: seq<R>,
    passedCount: int,
    failedCount: int,
    erroredCount: int,
    hasFailures: bool,
    hasErrors: bool,
    hasLogs: bool,
    isEmpty: bool,
    total: map<string, map<string, int>>)

  /** The final event of the run. */
  datatype Finished<S> = Finished(
    results: seq<S>,
    passedCount: int,
    failedCount: int,
    erroredCount: int,
    hasFailures: bool,
    hasErrors: bool,
    hasLogs: bool,
    isEmpty: bool,
    total: map<string, map<string, int>>,
    runningTime: real)

  /** `[serialize(result) for result in results]`. */
  function SerializeAll<R, S>(results: seq<R>, serialize: R -> S): (r: seq<S>)
    ensures |r| == |results|
    ensures forall i :: 0 <= i < |results| ==> r[i] == serialize(results[i])
  {
    if results == [] then [] else [serialize(results[0])] + SerializeAll(results[1..], serialize)
  }

  /** Serializing results run by run is serializing them all at once: the order is kept. */
  lemma {:induction false} SerializeAllAppend<R, S>(a: seq<R>, b: seq<R>, serialize: R -> S)
    ensures SerializeAll(a + b, serialize) == SerializeAll(a, serialize) + SerializeAll(b, serialize)
  {
    if a != [] {
      assert (a + b)[1..] == a[1..] + b;
      SerializeAllAppend(a[1..], b, serialize);
    } else {
      assert a + b == b;
    }
  }

  /**
   * `Finished.from_results`: the counts, flags and totals copied unchanged,
   * one serialized entry per result in iteration order, and the given running time.
   */
  function FinishedFromResults<R, S>(results: TestResultSet<R>, runningTime: real, serialize: R -> S): (r: Finished<S>)
    ensures |r.results| == |results.results|
    ensures forall i :: 0 <= i < |results.results| ==> r.results[i] == serialize(results.results[i])
    ensures r.passedCount == results.passedCount && r.failedCount == results.failedCount
    ensures r.erroredCount == results.erroredCount
    ensures r.hasFailures == results.hasFailures && r.hasErrors == results.hasErrors
    ensures r.hasLogs == results.hasLogs && r.isEmpty == results.isEmpty
    ensures r.total == results.total
    ensures r.runningTime == runningTime
  {
    Finished(
      SerializeAll(results.results, serialize),
      results.passedCount, results.failedCount, results.erroredCount,
      results.hasFailures, results.hasErrors, results.hasLogs, results.isEmpty,
      results.total,
      runningTime)
  }
}
