/** The adapter template new assessment services start from: a response
    carrying `overall_score` and three detail scores, a call that reports
    non-OK statuses, a test that wraps every failure, and a status probe. */
module Template {
  import opened Wrappers
  import opened Standard
  import opened Http
  import opened Decimal

  const ENDPOINT: string := "https://api.example.com/v1/assess"
  const STATUS_PATH: string := "/status"

  /** The parsed response body, as far as the template reads it. */
  datatype ApiResponse = ApiResponse(overallScore: Option<real>, accuracy: Option<real>,
                                     fluency: Option<real>, pronunciation: Option<real>)

  datatype Details = Details(accuracy: Option<real>, fluency: Option<real>, pronunciation: Option<real>)

  datatype Normalized = Normalized(score: real, details: Details, raw: ApiResponse)

  /** `normalizeResponse(apiResponse)`. */
  function NormalizeResponse(response: ApiResponse): (n: Normalized)
    ensures TruthyNum(response.overallScore) ==> n.score == response.overallScore.value
    ensures !TruthyNum(response.overallScore) ==> n.score == 0.0
    ensures n.details == Details(response.accuracy, response.fluency, response.pronunciation)
    ensures n.raw == response
  {
    Normalized(OrZero(response.overallScore),
               Details(response.accuracy, response.fluency, response.pronunciation),
               response)
  }

  /** The raw response is kept, so normalizing it again gives the same
      result, and two responses normalize alike only if they are equal. */
  lemma NormalizeKeepsRaw(a: ApiResponse, b: ApiResponse)
    ensures NormalizeResponse(NormalizeResponse(a).raw) == NormalizeResponse(a)
    ensures NormalizeResponse(a) == NormalizeResponse(b) ==> a == b
  {
  }

  /** `callAPI(...)` from the fetch outcome on: a non-OK status is
      reported as `HTTP <status>: <statusText>`. */
  function CallAPI(f: Fetch, body: ApiResponse): (r: Result<ApiResponse>)
    ensures f.Transport? ==> r == Err(f.message)
    ensures f.Got? && !IsOk(f.response) ==>
              r == Err(StatusText("HTTP ", f.response.status, ": ", f.response.statusText))
    ensures r.Ok? <==> f.Got? && IsOk(f.response)
    ensures r.Ok? ==> r.value == body
  {
    match f
    case Transport(m) => Err(m)
    case Got(resp) =>
      if !IsOk(resp) then Err(StatusText("HTTP ", resp.status, ": ", resp.statusText)) else Ok(body)
  }

  const FAILURE_PREFIX: string := "API call failed: "

  /** `test(...)`: every failure of the call is rethrown with the prefix
      `API call failed: `. */
  function Test(f: Fetch, body: ApiResponse): (r: Result<Normalized>)
    ensures r.Ok? <==> f.Got? && IsOk(f.response)
    ensures r.Ok? ==> r.value == NormalizeResponse(body)
    ensures r.Err? ==> |r.message| >= |FAILURE_PREFIX| && r.message[..|FAILURE_PREFIX|] == FAILURE_PREFIX
    ensures r.Err? ==> r.message[|FAILURE_PREFIX|..] == CallAPI(f, body).message
  {
    match CallAPI(f, body)
    case Err(m) => Err(FAILURE_PREFIX + m)
    case Ok(response) => Ok(NormalizeResponse(response))
  }

  /** A rejected request reads `API call failed: HTTP <status>: <text>`,
      and the status can be read back from it. */
  lemma RejectedStatusReadsBack(resp: Response, body: ApiResponse)
    requires !IsOk(resp)
    ensures var m := Test(Got(resp), body).message;
            var at := |FAILURE_PREFIX| + 5;
            var digits := |NatToString(resp.status)|;
            |m| >= at + digits + 2 + |resp.statusText| &&
            m[..at] == "API call failed: HTTP " &&
            ParseNat(m[at..at + digits]) == resp.status &&
            m[at + digits..at + digits + 2] == ": " &&
            m[|m| - |resp.statusText|..] == resp.statusText
  {
    var full := "API call failed: HTTP ";
    assert FAILURE_PREFIX + StatusText("HTTP ", resp.status, ": ", resp.statusText) ==
           StatusText(full, resp.status, ": ", resp.statusText);
    StatusTextReadsBack(full, resp.status, ": ", resp.statusText);
  }

  /** The URL `testConnection()` fetches. */
  function StatusUrl(): (url: string)
    ensures |url| == |ENDPOINT| + |STATUS_PATH|
    ensures url[..|ENDPOINT|] == ENDPOINT && url[|ENDPOINT|..] == STATUS_PATH
  {
    ENDPOINT + STATUS_PATH
  }

  /** `testConnection()`: whether the status request was OK; a transport
      failure is rethrown with context. */
  function TestConnection(f: Fetch): (r: Result<bool>)
    ensures r.Ok? <==> f.Got?
    ensures r.Ok? ==> (r.value <==> 200 <= f.response.status <= 299)
    ensures r.Err? ==> r.message == "Connection test failed: " + f.message
  {
    match f
    case Transport(m) => Err("Connection test failed: " + m)
    case Got(resp) => Ok(IsOk(resp))
  }

  /** The standardized result the lab displays. */
  function AsStandard(n: Normalized): (s: StandardResult)
    ensures s.score == Some(n.score)
    ensures s.details.Some? && |s.details.value| == 3
    ensures forall i :: 0 <= i < 3 ==> s.details.value[i].0 == ["accuracy", "fluency", "pronunciation"][i]
    ensures var d := s.details.value;
            && NumberOf(d[0].1) == n.details.accuracy
            && NumberOf(d[1].1) == n.details.fluency
            && NumberOf(d[2].1) == n.details.pronunciation
            && (forall i :: 0 <= i < 3 ==> d[i].1.Num? || d[i].1.Undefined?)
  {
    StandardResult(Some(n.score), Some([
      ("accuracy", NumOrUndefined(n.details.accuracy)),
      ("fluency", NumOrUndefined(n.details.fluency)),
      ("pronunciation", NumOrUndefined(n.details.pronunciation))]))
  }
}
