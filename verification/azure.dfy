/** The Azure Speech pronunciation-assessment adapter: its endpoint, its
    response normalization, its connection probe and the error texts of a
    test call. */
module Azure {
  import opened Wrappers
  import opened Standard
  import opened Http

  const DEFAULT_REGION: string := "eastus"
  const SCHEME: string := "https://"
  const HOST_SUFFIX: string := ".stt.speech.microsoft.com"
  const RECOGNITION_PATH: string := "/speech/recognition/conversation/cognitiveservices/v1?language="
  const NO_ASSESSMENT: string := "No pronunciation assessment in response"

  datatype Config = Config(key: Option<string>, region: Option<string>)

  datatype Adapter = Adapter(subscriptionKey: Option<string>, region: string, endpoint: string)

  /** The adapter's constructor: the region falls back to `eastus` when the
      configured one is missing or empty. */
  function Create(config: Config): (a: Adapter)
    ensures a.subscriptionKey == config.key
    ensures TruthyStr(config.region) ==> a.region == config.region.value
    ensures !TruthyStr(config.region) ==> a.region == DEFAULT_REGION
    ensures |a.endpoint| == |SCHEME| + |a.region| + |HOST_SUFFIX|
  {
    var region := if TruthyStr(config.region) then config.region.value else DEFAULT_REGION;
    Adapter(config.key, region, SCHEME + region + HOST_SUFFIX)
  }

  /** The region named by an endpoint of the form
      `https://<region>.stt.speech.microsoft.com`. */
  function RegionOf(endpoint: string): Option<string> {
    if |endpoint| >= |SCHEME| + |HOST_SUFFIX| && endpoint[..|SCHEME|] == SCHEME &&
       endpoint[|endpoint| - |HOST_SUFFIX|..] == HOST_SUFFIX
    then Some(endpoint[|SCHEME|..|endpoint| - |HOST_SUFFIX|])
    else None
  }

  /** The endpoint names exactly the adapter's region. */
  lemma EndpointNamesRegion(config: Config)
    ensures RegionOf(Create(config).endpoint) == Some(Create(config).region)
  {
    var a := Create(config);
    assert a.endpoint == SCHEME + (a.region + HOST_SUFFIX);
    assert a.endpoint[..|SCHEME|] == SCHEME;
    assert a.endpoint[|a.endpoint| - |HOST_SUFFIX|..] == HOST_SUFFIX;
    assert a.endpoint[|SCHEME|..|a.endpoint| - |HOST_SUFFIX|] == a.region;
  }

  /** The URL a test call posts to. */
  function RequestUrl(a: Adapter, language: string): (url: string)
    ensures |url| == |a.endpoint| + |RECOGNITION_PATH| + |language|
    ensures url[..|a.endpoint|] == a.endpoint
    ensures url[|url| - |language|..] == language
  {
    a.endpoint + RECOGNITION_PATH + language
  }

  /** `PronunciationAssessment` of the whole utterance. */
  datatype Assessment = Assessment(accuracy: Option<real>, fluency: Option<real>,
                                   completeness: Option<real>, pronScore: Option<real>)

  /** `PronunciationAssessment` of one word. */
  datatype WordAssessment = WordAssessment(accuracyScore: Option<real>, errorType: Option<string>)

  datatype Word = Word(word: Option<string>, assessment: Option<WordAssessment>)

  datatype Candidate = Candidate(assessment: Option<Assessment>, words: Option<seq<Word>>)

  /** The parsed response body: `NBest` and what the adapter reads of it. */
  datatype Data = Data(nBest: Option<seq<Candidate>>)

  datatype WordScore = WordScore(word: Option<string>, accuracy: Option<real>, error: Option<string>)

  datatype Details = Details(accuracy: Option<real>, fluency: Option<real>, completeness: Option<real>,
                             pronunciation: Option<real>, words: Option<seq<WordScore>>)

  datatype Normalized = Normalized(score: real, details: Details, raw: Data)

  /** `data.NBest?.[0]?.PronunciationAssessment`. */
  function FirstAssessment(data: Data): Option<Assessment> {
    if data.nBest.Some? && |data.nBest.value| > 0 then data.nBest.value[0].assessment else None
  }

  /** `data.NBest?.[0]?.Words || []`. */
  function FirstWords(data: Data): seq<Word> {
    if data.nBest.Some? && |data.nBest.value| > 0 && data.nBest.value[0].words.Some?
    then data.nBest.value[0].words.value else []
  }

  function ScoreWord(w: Word): (s: WordScore)
    ensures s.word == w.word
    ensures s.accuracy == (if w.assessment.Some? then w.assessment.value.accuracyScore else None)
    ensures s.error == (if w.assessment.Some? then w.assessment.value.errorType else None)
  {
    match w.assessment
    case Some(a) => WordScore(w.word, a.accuracyScore, a.errorType)
    case None => WordScore(w.word, None, None)
  }

  /** `normalizeResponse(data)`. */
  function NormalizeResponse(data: Data): (r: Result<Normalized>)
    ensures r.Err? <==> FirstAssessment(data).None?
    ensures r.Err? ==> r.message == NO_ASSESSMENT
    ensures r.Ok? ==>
              var a := FirstAssessment(data).value;
              r.value.score == OrZero(a.pronScore) &&
              r.value.details.accuracy == a.accuracy && r.value.details.fluency == a.fluency &&
              r.value.details.completeness == a.completeness && r.value.details.pronunciation == a.pronScore &&
              r.value.raw == data
    ensures r.Ok? ==> (r.value.details.words.None? <==> |FirstWords(data)| == 0)
    ensures r.Ok? && r.value.details.words.Some? ==>
              |r.value.details.words.value| == |FirstWords(data)| &&
              forall i :: 0 <= i < |FirstWords(data)| ==> r.value.details.words.value[i] == ScoreWord(FirstWords(data)[i])
  {
    match FirstAssessment(data)
    case None => Err(NO_ASSESSMENT)
    case Some(a) =>
      var words := FirstWords(data);
      var scored := seq(|words|, i requires 0 <= i < |words| => ScoreWord(words[i]));
      Ok(Normalized(OrZero(a.pronScore),
                    Details(a.accuracy, a.fluency, a.completeness, a.pronScore,
                            if |scored| > 0 then Some(scored) else None),
                    data))
  }

  /** The score is the pronunciation detail when that is a non-zero
      number, and 0 otherwise. */
  lemma ScoreIsPronunciation(data: Data)
    requires NormalizeResponse(data).Ok?
    ensures var n := NormalizeResponse(data).value;
            (TruthyNum(n.details.pronunciation) ==> n.score == n.details.pronunciation.value) &&
            (!TruthyNum(n.details.pronunciation) ==> n.score == 0.0)
  {
  }

  /** A response built from an assessment and its words normalizes back to
      that assessment and those words. */
  lemma NormalizeRecoversAssessment(a: Assessment, words: seq<Word>)
    ensures var r := NormalizeResponse(Data(Some([Candidate(Some(a), Some(words))])));
            r.Ok? && r.value.details.accuracy == a.accuracy && r.value.details.fluency == a.fluency &&
            r.value.details.completeness == a.completeness && r.value.details.pronunciation == a.pronScore &&
            (|words| > 0 ==> r.value.details.words.Some? &&
                             forall i :: 0 <= i < |words| ==> r.value.details.words.value[i].word == words[i].word)
  {
  }

  /** The standardized result the lab displays, details in the order the
      adapter writes them. */
  function AsStandard(n: Normalized): (s: StandardResult)
    ensures s.score == Some(n.score)
    ensures s.details.Some? && |s.details.value| == 5
    ensures forall i :: 0 <= i < 5 ==>
              s.details.value[i].0 == ["accuracy", "fluency", "completeness", "pronunciation", "words"][i]
    ensures var d := s.details.value;
            && NumberOf(d[0].1) == n.details.accuracy
            && NumberOf(d[1].1) == n.details.fluency
            && NumberOf(d[2].1) == n.details.completeness
            && NumberOf(d[3].1) == n.details.pronunciation
            && (forall i :: 0 <= i < 4 ==> d[i].1.Num? || d[i].1.Undefined?)
            && (d[4].1.Structured? <==> n.details.words.Some?)
            && (d[4].1.Undefined? <==> n.details.words.None?)
  {
    StandardResult(Some(n.score), Some([
      ("accuracy", NumOrUndefined(n.details.accuracy)),
      ("fluency", NumOrUndefined(n.details.fluency)),
      ("completeness", NumOrUndefined(n.details.completeness)),
      ("pronunciation", NumOrUndefined(n.details.pronunciation)),
      ("words", ListOrUndefined(n.details.words))]))
  }

  /** `test(...)` from the fetch outcome on: transport errors are rethrown
      as they are, a non-OK status becomes an `Azure API error` carrying
      the status and body text, and an OK response is normalized. */
  function Test(f: Fetch, data: Data): (r: Result<Normalized>)
    ensures f.Transport? ==> r == Err(f.message)
    ensures f.Got? && !IsOk(f.response) ==>
              r == Err(StatusText("Azure API error: ", f.response.status, " - ", f.response.body))
    ensures f.Got? && IsOk(f.response) ==> r == NormalizeResponse(data)
    ensures r.Ok? <==> f.Got? && IsOk(f.response) && FirstAssessment(data).Some?
  {
    match f
    case Transport(m) => Err(m)
    case Got(resp) =>
      if !IsOk(resp) then Err(StatusText("Azure API error: ", resp.status, " - ", resp.body))
      else NormalizeResponse(data)
  }

  /** `testConnection()`: any response whose status is 405 or OK means the
      key was accepted; a transport failure is rethrown with context. */
  function TestConnection(f: Fetch): (r: Result<bool>)
    ensures r.Ok? <==> f.Got?
    ensures r.Ok? ==> (r.value <==> f.response.status == 405 || 200 <= f.response.status <= 299)
    ensures r.Err? ==> r.message == "Azure connection test failed: " + f.message
  {
    match f
    case Transport(m) => Err("Azure connection test failed: " + m)
    case Got(resp) => Ok(resp.status == 405 || IsOk(resp))
  }
}
