/** How the adapters plug into the lab: an adapter's `test` outcome becomes
    the lab's `Outcome`, and its `testConnection` result becomes a probe. */
module Pipeline {
  import opened Wrappers
  import opened JsObject
  import opened Standard
  import opened Http
  import opened Stats
  import opened Display
  import opened Lab
  import Azure
  import SpeechSuper
  import Template

  /** What `testSingle` sees of an adapter call that took `elapsed` ms. */
  function OutcomeOf(r: Result<StandardResult>, elapsed: real): (o: Outcome)
    ensures o.Success? <==> r.Ok?
    ensures o.Success? ==> o.result == r.value && o.elapsed == elapsed
    ensures o.Failure? ==> o.message == r.message
  {
    match r
    case Ok(s) => Success(s, elapsed)
    case Err(m) => Failure(m)
  }

  /** Azure's `test` as the lab sees it: it succeeds exactly on an OK
      response carrying an assessment, scored with `PronScore || 0`. */
  function AzureOutcome(f: Fetch, data: Azure.Data, elapsed: real): (o: Outcome)
    ensures o.Success? <==> f.Got? && IsOk(f.response) && Azure.FirstAssessment(data).Some?
    ensures o.Success? ==>
              o.elapsed == elapsed && o.result.score == Some(OrZero(Azure.FirstAssessment(data).value.pronScore))
    ensures o.Failure? && f.Transport? ==> o.message == f.message
    ensures o.Failure? && f.Got? && !IsOk(f.response) ==>
              o.message == StatusText("Azure API error: ", f.response.status, " - ", f.response.body)
    ensures o.Failure? && f.Got? && IsOk(f.response) ==> o.message == Azure.NO_ASSESSMENT
  {
    match Azure.Test(f, data)
    case Ok(n) => OutcomeOf(Ok(Azure.AsStandard(n)), elapsed)
    case Err(m) => OutcomeOf(Err(m), elapsed)
  }

  /** SpeechSuper's `test` as the lab sees it: it succeeds exactly on an OK
      response without an error, scored with `overall || 0`. */
  function SpeechSuperOutcome(f: Fetch, data: SpeechSuper.Data, elapsed: real): (o: Outcome)
    ensures o.Success? <==> f.Got? && IsOk(f.response) && !TruthyStr(data.error)
    ensures o.Success? ==>
              o.elapsed == elapsed && o.result.score == Some(OrZero(SpeechSuper.ResultOf(data).overall))
    ensures o.Failure? && f.Transport? ==> o.message == f.message
    ensures o.Failure? && f.Got? && !IsOk(f.response) ==>
              o.message == StatusText("SpeechSuper API error: ", f.response.status, " - ", f.response.body)
    ensures o.Failure? && f.Got? && IsOk(f.response) ==> o.message == "SpeechSuper error: " + data.error.value
  {
    match SpeechSuper.Test(f, data)
    case Ok(n) => OutcomeOf(Ok(SpeechSuper.AsStandard(n)), elapsed)
    case Err(m) => OutcomeOf(Err(m), elapsed)
  }

  /** The template adapter's `test` as the lab sees it: it succeeds exactly
      on an OK response, scored with `overall_score || 0`; every failure
      carries the "API call failed: " prefix. */
  function TemplateOutcome(f: Fetch, body: Template.ApiResponse, elapsed: real): (o: Outcome)
    ensures o.Success? <==> f.Got? && IsOk(f.response)
    ensures o.Success? ==> o.elapsed == elapsed && o.result.score == Some(OrZero(body.overallScore))
    ensures o.Failure? ==>
              |o.message| >= |Template.FAILURE_PREFIX| && o.message[..|Template.FAILURE_PREFIX|] == Template.FAILURE_PREFIX
  {
    match Template.Test(f, body)
    case Ok(n) => OutcomeOf(Ok(Template.AsStandard(n)), elapsed)
    case Err(m) => OutcomeOf(Err(m), elapsed)
  }

  /** Every adapter's successful test yields a scored result. */
  predicate ScoresWhenSucceeds(run: string -> Outcome, name: string) {
    run(name).Success? ==> run(name).result.score.Some?
  }

  /** Once a scored test has succeeded, `compareResults` has statistics to
      report, and the tested adapter is among the scores. */
  lemma SuccessfulTestIsCompared(st: State, name: string, run: string -> Outcome, prices: Entries<real>)
    requires st.hasAudio && HasKey(st.apis, name) && run(name).Success? && ScoresWhenSucceeds(run, name)
    ensures var after := TestSingle(st, name, run, prices);
            CompareResults(after.results).Some? &&
            Scored(name, run(name).result.score.value) in CompareResults(after.results).value.scores
  {
    var after := TestSingle(st, name, run, prices);
    var result := run(name).result;
    var i :| 0 <= i < |after.results| && after.results[i] == (name, result);
    ScoredEntriesComplete(after.results, i);
  }

  /** An Azure key the service rejects (401) is still reported as
      connected by `testConnections` as written, and as failed once a
      `false` probe counts as a failure. */
  lemma RejectedAzureKeyReportedConnected()
    ensures var probe := ProbeOf(Azure.TestConnection(Got(Response(401, "Unauthorized", ""))));
            probe == Resolved(false) &&
            TestConnections([probe]).kind == Connected &&
            TestConnectionsCorrected([probe]).kind == Failed
  {
    FailedProbeReportedConnected();
  }

  /** SpeechSuper without an API key is reported as connected as written,
      and as failed once a `false` probe counts as a failure. */
  lemma MissingSpeechSuperKeyReportedConnected(config: SpeechSuper.Config)
    requires !TruthyStr(config.key)
    ensures var probe := ProbeOf(SpeechSuper.TestConnection(SpeechSuper.Create(config)));
            probe == Resolved(false) &&
            TestConnections([probe]).kind == Connected &&
            TestConnectionsCorrected([probe]).kind == Failed
  {
    FailedProbeReportedConnected();
  }
}
