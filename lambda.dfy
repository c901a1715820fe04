/**
 * The paginated enumerator and the check evaluator.  The listing API is an
 * abstract page source: the sequence of responses it gives to successive
 * `ListFunctions` calls.  Each response is a page of function records with an
 * optional continuation marker, or a request error.  A function record's
 * contents pass through untouched; only their number and order matter.
 */
module Lambda {
  import opened Errors
  import opened Strconv
  import opened Config

  /** `MaxItems` on every request. */
  const PageSize := 100

  /** One `*lambda.FunctionConfiguration`, opaque to the probe. */
  datatype FunctionConfiguration = FunctionConfiguration(functionArn: string)

  /** What one `ListFunctions` call returns. */
  datatype Response =
    | Page(functions: seq<FunctionConfiguration>, nextMarker: Option<string>)
    | Failure(error: Error)

  /** `lambda.ListFunctionsInput`: the page-size cap and the marker, nil on the first request. */
  datatype ListFunctionsInput = ListFunctionsInput(maxItems: int, marker: Option<string>)

  /** What an enumeration yields: the records, the error if one ended it, and every request it issued. */
  datatype Listing = Listing(functions: seq<FunctionConfiguration>, err: Option<Error>, requests: seq<ListFunctionsInput>)

  /** A response after which the loop issues no further request. */
  predicate Final(r: Response) {
    r.Failure? || r.nextMarker.None?
  }

  /**
   * The termination assumption: the API eventually fails or stops returning a
   * marker.  `listLambdas` relies on the remote service for this (lambda.go:38).
   */
  predicate Terminates(api: seq<Response>) {
    exists i :: 0 <= i < |api| && Final(api[i])
  }

  lemma TerminatesTail(api: seq<Response>)
    requires Terminates(api) && !Final(api[0])
    ensures Terminates(api[1..])
  {
    var i :| 0 <= i < |api| && Final(api[i]);
    assert i != 0 && Final(api[1..][i - 1]);
  }

  /** The records a run of responses contributes, in order; a failed request contributes none. */
  function Flatten(responses: seq<Response>): seq<FunctionConfiguration> {
    if responses == [] then []
    else (if responses[0].Page? then responses[0].functions else []) + Flatten(responses[1..])
  }

  /** The total number of records on the pages of a run of responses. */
  function TotalSize(responses: seq<Response>): nat {
    if responses == [] then 0
    else (if responses[0].Page? then |responses[0].functions| else 0) + TotalSize(responses[1..])
  }

  lemma {:induction false} FlattenLength(responses: seq<Response>)
    ensures |Flatten(responses)| == TotalSize(responses)
  {
    if responses != [] { FlattenLength(responses[1..]); }
  }

  /**
   * The enumeration, request by request: ask for a page with `marker`; stop
   * on an error or on a page without a marker; otherwise ask again with that
   * page's marker.
   */
  function Enumerate(api: seq<Response>, marker: Option<string>): Listing
    requires Terminates(api)
    decreases |api|
  {
    var request := ListFunctionsInput(PageSize, marker);
    match api[0]
    case Failure(e) => Listing([], Some(e), [request])
    case Page(fs, next) =>
      if next.None? then Listing(fs, None, [request])
      else
        TerminatesTail(api);
        var rest := Enumerate(api[1..], next);
        Listing(fs + rest.functions, rest.err, [request] + rest.requests)
  }

  /**
   * The requests an enumeration issues: one per response it consumes, all
   * capped at PageSize; the first carries the given marker and each later one
   * exactly the marker of the page before it.  It stops at the first final
   * response and at no earlier one.
   */
  lemma {:induction false} EnumerateRequests(api: seq<Response>, marker: Option<string>)
    requires Terminates(api)
    ensures var reqs := Enumerate(api, marker).requests;
      1 <= |reqs| <= |api|
      && reqs[0].marker == marker
      && (forall i :: 0 <= i < |reqs| ==> reqs[i].maxItems == PageSize)
      && (forall i :: 1 <= i < |reqs| ==> api[i - 1].Page? && api[i - 1].nextMarker.Some? && reqs[i].marker == api[i - 1].nextMarker)
      && Final(api[|reqs| - 1])
      && (forall i :: 0 <= i < |reqs| - 1 ==> !Final(api[i]))
    decreases |api|
  {
    if !Final(api[0]) {
      TerminatesTail(api);
      EnumerateRequests(api[1..], api[0].nextMarker);
      var reqs := Enumerate(api, marker).requests;
      var tail := Enumerate(api[1..], api[0].nextMarker).requests;
      assert reqs == [ListFunctionsInput(PageSize, marker)] + tail;
      forall i | 1 <= i < |reqs|
        ensures api[i - 1].Page? && api[i - 1].nextMarker.Some? && reqs[i].marker == api[i - 1].nextMarker
      {
        if i > 1 { assert api[1..][i - 2] == api[i - 1]; }
      }
      forall i | 0 <= i < |reqs| - 1 ensures !Final(api[i]) {
        if i > 0 { assert api[1..][i - 1] == api[i]; }
      }
      assert api[1..][|tail| - 1] == api[|reqs| - 1];
    }
  }

  /**
   * What an enumeration returns, given that it consumed n responses: every
   * record of those responses in order (no record dropped or repeated), and
   * the error of the last one if it failed; so on success it returns every
   * page's records.
   */
  lemma {:induction false} EnumerateCollects(api: seq<Response>, marker: Option<string>)
    requires Terminates(api)
    ensures var l := Enumerate(api, marker); var n := |l.requests|;
      1 <= n <= |api|
      && l.functions == Flatten(api[..n])
      && |l.functions| == TotalSize(api[..n])
      && l.err == (if api[n - 1].Failure? then Some(api[n - 1].error) else None)
    decreases |api|
  {
    var l := Enumerate(api, marker);
    var n := |l.requests|;
    if !Final(api[0]) {
      TerminatesTail(api);
      EnumerateCollects(api[1..], api[0].nextMarker);
      assert api[..n][1..] == api[1..][..n - 1];
      assert api[1..][n - 2] == api[n - 1];
    } else {
      assert api[..n] == [api[0]];
      assert Flatten(api[..n][1..]) == [];
    }
    FlattenLength(api[..n]);
  }

  /** An enumeration that returns no error saw no failed request. */
  lemma EnumerateSucceeds(api: seq<Response>)
    requires Terminates(api)
    ensures var l := Enumerate(api, None);
      |l.requests| <= |api| && (l.err.None? <==> forall i :: 0 <= i < |l.requests| ==> api[i].Page?)
  {
    EnumerateRequests(api, None);
    EnumerateCollects(api, None);
  }

  /**
   * `listLambdas`: a first request with no marker, then one request per
   * marker until a page comes back without one; the first error ends the
   * enumeration with the records gathered so far.
   */
  method ListLambdas(api: seq<Response>) returns (functions: seq<FunctionConfiguration>, err: Option<Error>, requests: seq<ListFunctionsInput>)
    requires Terminates(api)
    ensures Listing(functions, err, requests) == Enumerate(api, None)
  {
    functions := [];
    requests := [ListFunctionsInput(PageSize, None)];
    var results := api[0];
    var served := 1;
    if results.Failure? {
      err := Some(results.error);
      return;
    }
    functions := functions + results.functions;
    if results.nextMarker.Some? { TerminatesTail(api); }
    while results.nextMarker.Some?
      invariant 1 <= served <= |api|
      invariant results == api[served - 1] && results.Page?
      invariant results.nextMarker.Some? ==>
        Terminates(api[served..])
        && Enumerate(api, None) == Join(functions, requests, Enumerate(api[served..], results.nextMarker))
      invariant results.nextMarker.None? ==> Enumerate(api, None) == Listing(functions, None, requests)
      decreases |api| - served
    {
      var marker := results.nextMarker.value;
      var request := ListFunctionsInput(PageSize, Some(marker));
      ghost var rest := api[served..];
      JoinStep(functions, requests, rest, results.nextMarker);
      requests := requests + [request];
      results := api[served];
      served := served + 1;
      if results.Failure? {
        err := Some(results.error);
        return;
      }
      functions := functions + results.functions;
      if results.nextMarker.Some? {
        assert rest[1..] == api[served..];
      }
    }
    err := None;
  }

  /** The given records and requests followed by those of `rest`. */
  function Join(functions: seq<FunctionConfiguration>, requests: seq<ListFunctionsInput>, rest: Listing): (l: Listing)
    ensures l.err == rest.err
    ensures |l.functions| == |functions| + |rest.functions| && |l.requests| == |requests| + |rest.requests|
  {
    Listing(functions + rest.functions, rest.err, requests + rest.requests)
  }

  /** One step of the enumeration, folded into what came before it. */
  lemma JoinStep(functions: seq<FunctionConfiguration>, requests: seq<ListFunctionsInput>, rest: seq<Response>, marker: Option<string>)
    requires Terminates(rest)
    ensures var l := Join(functions, requests, Enumerate(rest, marker));
      var requests' := requests + [ListFunctionsInput(PageSize, marker)];
      match rest[0]
      case Failure(e) => l == Listing(functions, Some(e), requests')
      case Page(fs, next) =>
        if next.None? then l == Listing(functions + fs, None, requests')
        else Terminates(rest[1..]) && l == Join(functions + fs, requests', Enumerate(rest[1..], next))
  {
    var request := ListFunctionsInput(PageSize, marker);
    match rest[0]
    case Failure(e) =>
      assert functions + [] == functions;
    case Page(fs, next) =>
      if next.Some? {
        TerminatesTail(rest);
        var tail := Enumerate(rest[1..], next);
        assert functions + (fs + tail.functions) == (functions + fs) + tail.functions;
        assert requests + ([request] + tail.requests) == (requests + [request]) + tail.requests;
      }
  }

  const NoLambdasMessage := "could not find any Lambdas"

  function MismatchMessage(expected: int, found: nat): string {
    "mismatching count of Lambdas -- expected " + FormatInt(expected) + ", but got " + FormatInt(found)
  }

  /**
   * The count policy of `runLambdaCheck`: with an expected count configured,
   * pass exactly on that count (so a negative one never passes); without one,
   * pass exactly when something was found.
   */
  function EvaluateCount(expected: int, found: nat): (r: Option<Error>)
    ensures expected != 0 ==> (r.None? <==> found == expected)
    ensures expected != 0 && found != expected ==> r == Some(Plain(MismatchMessage(expected, found)))
    ensures expected == 0 ==> (r.None? <==> found > 0)
    ensures expected == 0 && found == 0 ==> r == Some(Plain(NoLambdasMessage))
    ensures expected < 0 ==> r.Some?
  {
    if expected != 0 then
      if found != expected then Some(Plain(MismatchMessage(expected, found))) else None
    else if found != 0 then None
    else Some(Plain(NoLambdasMessage))
  }

  /** The mismatch message states both counts, each readable back as a decimal integer. */
  lemma MismatchMessageStatesCounts(expected: int, found: nat)
    requires InInt64(expected) && found <= MaxInt64
    ensures var prefix := "mismatching count of Lambdas -- expected ";
      var e := FormatInt(expected);
      var m := MismatchMessage(expected, found);
      m[..|prefix|] == prefix
      && Atoi(m[|prefix|..|prefix| + |e|]) == Ok(expected)
      && m[|prefix| + |e|..|prefix| + |e| + 10] == ", but got "
      && Atoi(m[|prefix| + |e| + 10..]) == Ok(found)
  {
    var prefix := "mismatching count of Lambdas -- expected ";
    var e := FormatInt(expected);
    var f := FormatInt(found);
    var m := MismatchMessage(expected, found);
    assert m == prefix + e + ", but got " + f;
    assert m[|prefix|..|prefix| + |e|] == e;
    assert m[|prefix| + |e| + 10..] == f;
    AtoiFormatInt(expected);
    AtoiFormatInt(found);
  }

  /** The outcome of `runLambdaCheck`: an enumeration error unchanged, else the count policy on what was found. */
  function CheckResult(expected: int, api: seq<Response>): (r: Option<Error>)
    requires Terminates(api)
  {
    var listing := Enumerate(api, None);
    if listing.err.Some? then listing.err else EvaluateCount(expected, |listing.functions|)
  }

  /**
   * The check passes exactly when every request succeeded and the total
   * number of records on the pages consumed meets the count policy; an
   * enumeration error is passed on unchanged, with no count check.
   */
  lemma CheckResultSpec(expected: int, api: seq<Response>)
    requires Terminates(api)
    ensures var n := |Enumerate(api, None).requests|;
      n <= |api|
      && (api[n - 1].Failure? ==> CheckResult(expected, api) == Some(api[n - 1].error))
      && (CheckResult(expected, api).None? <==>
            (forall i :: 0 <= i < n ==> api[i].Page?)
            && (if expected != 0 then TotalSize(api[..n]) == expected else TotalSize(api[..n]) > 0))
  {
    EnumerateCollects(api, None);
    EnumerateSucceeds(api);
  }

  /** `runLambdaCheck`: enumerate, then judge the count. */
  method RunLambdaCheck(cfg: CheckConfig, api: seq<Response>) returns (err: Option<Error>, requests: seq<ListFunctionsInput>)
    requires Terminates(api)
    ensures requests == Enumerate(api, None).requests
    ensures err == CheckResult(cfg.expectedLambdaCount, api)
  {
    var functions, listErr;
    functions, listErr, requests := ListLambdas(api);
    if listErr.Some? {
      return listErr, requests;
    }
    err := EvaluateCount(cfg.expectedLambdaCount, |functions|);
  }
}
