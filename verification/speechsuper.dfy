/** The SpeechSuper pronunciation-assessment adapter: language and core
    type selection, response normalization with word, phoneme and tone
    details, its connection probe and the error texts of a test call. */
module SpeechSuper {
  import opened Wrappers
  import opened Standard
  import opened Http

  const DEFAULT_APP_ID: string := "default"
  const ENDPOINT: string := "https://api.speechsuper.com"

  datatype Config = Config(key: Option<string>, appId: Option<string>)

  datatype Adapter = Adapter(apiKey: Option<string>, appId: string, endpoint: string)

  /** The adapter's constructor: the app id falls back to `default` when
      the configured one is missing or empty. */
  function Create(config: Config): (a: Adapter)
    ensures a.apiKey == config.key && a.endpoint == ENDPOINT
    ensures TruthyStr(config.appId) ==> a.appId == config.appId.value
    ensures !TruthyStr(config.appId) ==> a.appId == DEFAULT_APP_ID
  {
    Adapter(config.key, if TruthyStr(config.appId) then config.appId.value else DEFAULT_APP_ID, ENDPOINT)
  }

  /** `langMap[language] || 'en'`. */
  function LanguageOf(language: string): (l: string)
    ensures l == "zh-cmn" <==> language == "zh-CN" || language == "zh-TW"
    ensures l == "jp" <==> language == "ja-JP"
    ensures l == "ko" <==> language == "ko-KR"
    ensures l == "en" <==> language !in {"zh-CN", "zh-TW", "ja-JP", "ko-KR"}
  {
    if language == "zh-CN" || language == "zh-TW" then "zh-cmn"
    else if language == "ja-JP" then "jp"
    else if language == "ko-KR" then "ko"
    else "en"
  }

  /** Chinese is scored with the Chinese word evaluator. */
  function CoreType(ssLang: string): (c: string)
    ensures c == "word.eval.cn" <==> ssLang == "zh-cmn"
    ensures c == "word.eval" <==> ssLang != "zh-cmn"
  {
    if ssLang == "zh-cmn" then "word.eval.cn" else "word.eval"
  }

  /** The request's core type follows from the UI language alone: the
      Chinese evaluator for Mainland and Taiwan Chinese, the plain one for
      every other language, including ones the table does not know. */
  lemma CoreTypeOfLanguage(language: string)
    ensures CoreType(LanguageOf(language)) == (if language in {"zh-CN", "zh-TW"} then "word.eval.cn" else "word.eval")
  {
  }

  datatype Phoneme = Phoneme(phone: Option<string>, pronunciation: Option<real>, soundLike: Option<string>)

  datatype WordScores = WordScores(overall: Option<real>)

  datatype ToneScores = ToneScores(overall: Option<real>, details: Value)

  datatype Word = Word(word: Option<string>, scores: Option<WordScores>, phonemes: Option<seq<Phoneme>>,
                       toneScores: Option<ToneScores>)

  /** `data.result`: the sentence scores and the scored words. */
  datatype Scores = Scores(overall: Option<real>, pronunciation: Option<real>, fluency: Option<real>,
                           integrity: Option<real>, rhythm: Option<real>, words: Option<seq<Word>>)

  /** The parsed response body. */
  datatype Data = Data(error: Option<string>, result: Option<Scores>)

  datatype PhonemeDetail = PhonemeDetail(phone: Option<string>, score: Option<real>, soundLike: Option<string>)

  datatype WordDetail = WordDetail(word: Option<string>, score: Option<real>, phonemes: Option<seq<PhonemeDetail>>)

  datatype ToneInfo = ToneInfo(toneScore: Option<real>, tones: Value)

  datatype Details = Details(pronunciation: Option<real>, fluency: Option<real>, integrity: Option<real>,
                             rhythm: Option<real>, words: Option<seq<WordDetail>>, tones: Option<ToneInfo>)

  datatype Normalized = Normalized(score: real, details: Details, raw: Data)

  function DetailPhoneme(p: Phoneme): (d: PhonemeDetail)
    ensures d.phone == p.phone && d.score == p.pronunciation && d.soundLike == p.soundLike
  {
    PhonemeDetail(p.phone, p.pronunciation, p.soundLike)
  }

  function DetailWord(w: Word): (d: WordDetail)
    ensures d.word == w.word
    ensures d.score == (if w.scores.Some? then w.scores.value.overall else None)
    ensures d.phonemes.Some? <==> w.phonemes.Some?
    ensures d.phonemes.Some? ==>
              |d.phonemes.value| == |w.phonemes.value| &&
              forall i :: 0 <= i < |w.phonemes.value| ==> d.phonemes.value[i] == DetailPhoneme(w.phonemes.value[i])
  {
    var phonemes := match w.phonemes
      case None => None
      case Some(ps) => Some(seq(|ps|, i requires 0 <= i < |ps| => DetailPhoneme(ps[i])));
    WordDetail(w.word, if w.scores.Some? then w.scores.value.overall else None, phonemes)
  }

  /** `data.result || {}`. */
  function ResultOf(data: Data): Scores {
    data.result.GetOr(Scores(None, None, None, None, None, None))
  }

  /** `result.words || []`. */
  function WordsOf(data: Data): seq<Word> {
    ResultOf(data).words.GetOr([])
  }

  /** `normalizeResponse(data)`. */
  function NormalizeResponse(data: Data): (r: Result<Normalized>)
    ensures r.Err? <==> TruthyStr(data.error)
    ensures r.Err? ==> r.message == "SpeechSuper error: " + data.error.value
    ensures r.Ok? ==>
              var res := ResultOf(data);
              r.value.score == OrZero(res.overall) &&
              r.value.details.pronunciation == res.pronunciation && r.value.details.fluency == res.fluency &&
              r.value.details.integrity == res.integrity && r.value.details.rhythm == res.rhythm &&
              r.value.raw == data
    ensures r.Ok? ==> (r.value.details.words.None? <==> |WordsOf(data)| == 0)
    ensures r.Ok? && r.value.details.words.Some? ==>
              |r.value.details.words.value| == |WordsOf(data)| &&
              forall i :: 0 <= i < |WordsOf(data)| ==> r.value.details.words.value[i] == DetailWord(WordsOf(data)[i])
    ensures r.Ok? ==> (r.value.details.tones.Some? <==> |WordsOf(data)| > 0 && WordsOf(data)[0].toneScores.Some?)
    ensures r.Ok? && r.value.details.tones.Some? ==>
              r.value.details.tones.value == ToneInfo(WordsOf(data)[0].toneScores.value.overall,
                                                       WordsOf(data)[0].toneScores.value.details)
  {
    if TruthyStr(data.error) then Err("SpeechSuper error: " + data.error.value)
    else
      var res := ResultOf(data);
      var words := WordsOf(data);
      var detailed := seq(|words|, i requires 0 <= i < |words| => DetailWord(words[i]));
      var tones := if |words| > 0 && words[0].toneScores.Some?
                   then Some(ToneInfo(words[0].toneScores.value.overall, words[0].toneScores.value.details))
                   else None;
      Ok(Normalized(OrZero(res.overall),
                    Details(res.pronunciation, res.fluency, res.integrity, res.rhythm,
                            if |detailed| > 0 then Some(detailed) else None, tones),
                    data))
  }

  /** A body without an error or a result normalizes to a zero score with
      no details, so `score` is always defined. */
  lemma EmptyResponseScoresZero()
    ensures NormalizeResponse(Data(None, None)) ==
            Ok(Normalized(0.0, Details(None, None, None, None, None, None), Data(None, None)))
    ensures NormalizeResponse(Data(Some(""), None)).Ok?
  {
  }

  /** Tone information comes from the first word only: two responses whose
      first words agree report the same tones, whatever their later words. */
  lemma TonesFromFirstWordOnly(d1: Data, d2: Data)
    requires NormalizeResponse(d1).Ok? && NormalizeResponse(d2).Ok?
    requires |WordsOf(d1)| > 0 && |WordsOf(d2)| > 0 && WordsOf(d1)[0] == WordsOf(d2)[0]
    ensures NormalizeResponse(d1).value.details.tones == NormalizeResponse(d2).value.details.tones
  {
  }

  /** The standardized result the lab displays, details in the order the
      adapter writes them. */
  function AsStandard(n: Normalized): (s: StandardResult)
    ensures s.score == Some(n.score)
    ensures s.details.Some? && |s.details.value| == 6
    ensures forall i :: 0 <= i < 6 ==>
              s.details.value[i].0 == ["pronunciation", "fluency", "integrity", "rhythm", "words", "tones"][i]
    ensures var d := s.details.value;
            && NumberOf(d[0].1) == n.details.pronunciation
            && NumberOf(d[1].1) == n.details.fluency
            && NumberOf(d[2].1) == n.details.integrity
            && NumberOf(d[3].1) == n.details.rhythm
            && (forall i :: 0 <= i < 4 ==> d[i].1.Num? || d[i].1.Undefined?)
            && (d[4].1.Structured? <==> n.details.words.Some?)
            && (d[4].1.Undefined? <==> n.details.words.None?)
            && (d[5].1.Structured? <==> n.details.tones.Some?)
            && (d[5].1.Undefined? <==> n.details.tones.None?)
  {
    StandardResult(Some(n.score), Some([
      ("pronunciation", NumOrUndefined(n.details.pronunciation)),
      ("fluency", NumOrUndefined(n.details.fluency)),
      ("integrity", NumOrUndefined(n.details.integrity)),
      ("rhythm", NumOrUndefined(n.details.rhythm)),
      ("words", ListOrUndefined(n.details.words)),
      ("tones", if n.details.tones.Some? then Structured else Undefined)]))
  }

  /** `test(...)` from the fetch outcome on: transport errors are rethrown
      as they are, a non-OK status becomes a `SpeechSuper API error`
      carrying the status and body text, and an OK response is normalized. */
  function Test(f: Fetch, data: Data): (r: Result<Normalized>)
    ensures f.Transport? ==> r == Err(f.message)
    ensures f.Got? && !IsOk(f.response) ==>
              r == Err(StatusText("SpeechSuper API error: ", f.response.status, " - ", f.response.body))
    ensures f.Got? && IsOk(f.response) ==> r == NormalizeResponse(data)
    ensures r.Ok? <==> f.Got? && IsOk(f.response) && !TruthyStr(data.error)
  {
    match f
    case Transport(m) => Err(m)
    case Got(resp) =>
      if !IsOk(resp) then Err(StatusText("SpeechSuper API error: ", resp.status, " - ", resp.body))
      else NormalizeResponse(data)
  }

  /** `testConnection()`: there is no status endpoint, so the probe only
      reports whether an API key is configured; it never throws. */
  function TestConnection(a: Adapter): (r: Result<bool>)
    ensures r.Ok?
    ensures r.value <==> a.apiKey.Some? && a.apiKey.value != ""
  {
    Ok(TruthyStr(a.apiKey))
  }
}
