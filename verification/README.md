# Pronunciation lab, modelled in Dafny

This project models the core of a browser tool that compares pronunciation-assessment services. The tool:

- sends one recording to several vendor adapters;
- normalizes each vendor's answer into a standardized result `{score, details, raw}`;
- displays each result, and compares the scores across vendors.

The model covers:

- **Audio** (`utils/audio.js`):
  - `audioBufferToWav`: the 44-byte RIFF/WAVE header, then interleaved little-endian 16-bit samples. Each sample is clamped to [-1, 1], scaled by 32768 when negative and 32767 otherwise, and truncated toward zero.
  - `trimSilence`: scans channel 0 from both ends for a sample louder than the threshold, then slices every channel.
  - `normalizeAudio`: finds the peak amplitude over all channels and scales every sample by `0.95 / peak`.
- **Lab** (`lab.js`):
  - the lab state: registered adapters, results, timings and accumulated cost;
  - `registerAPI`, `testSingle`, and `testAll` as a fold over the registered adapters;
  - `compareResults`: mean, minimum, maximum, spread, variance and outliers;
  - `formatResults` rows and score classes;
  - `clear`, and `saveSession`, whose session holds the lab's own results and timings objects until `clear` replaces them;
  - the quick-phrase buttons;
  - the `testConnections` status line.
- **Adapters** (`apis/azure.js`, `apis/speechsuper.js`, `apis/_template.js`): each adapter's constructor defaults, response normalization, error texts and connection probe.

## Modules and conventions

Each file holds one module:

| file | module | models |
|---|---|---|
| `wrappers.dfy` | `Wrappers` | Option and Result; JavaScript truthiness and `x || 0` |
| `decimal.dfy` | `Decimal` | decimal rendering of naturals, and parsing back |
| `jsobject.dfy` | `JsObject` | plain objects as insertion-ordered key/value lists |
| `bytes.dfy` | `Bytes` | bytes, `DataView` little-endian writes with their modular wrap, 16-bit two's complement |
| `wav.dfy` | `Wav` | `audioBufferToWav` |
| `transforms.dfy` | `Transforms` | `trimSilence` and `normalizeAudio` |
| `standard.dfy` | `Standard` | the standardized result |
| `stats.dfy` | `Stats` | `compareResults` |
| `display.dfy` | `Display` | `formatResults`, quick phrases, `testConnections` |
| `lab.dfy` | `Lab` | the lab state and its operations |
| `http.dfy` | `Http` | the fetch outcome an adapter sees |
| `azure.dfy`, `speechsuper.dfy`, `template.dfy` | `Azure`, `SpeechSuper`, `Template` | the adapters |
| `pipeline.dfy` | `Pipeline` | how adapter outcomes and probes reach the lab |

Conventions:

- **Numbers** are exact reals.
- **Byte-level arithmetic** is explicit:
  - `setUint16` and `setUint32` store their argument modulo 2^16 and 2^32;
  - `setInt16` stores the truncated sample as two's complement.
- **Parameters instead of effects.** What an adapter call returns (`Outcome`), what a connection probe did (`Probe`), the fetch result (`Fetch`) and the parsed JSON body are all parameters. The model never performs I/O.

## Model

| member | source | states |
|---|---|---|
| Bytes.ToUint16 | utils/audio.js:74-77 | a value stored by `setUint16` is the argument reduced modulo 2^16 into 0..65535 |
| Bytes.ToUint32 | utils/audio.js:79-82 | a value stored by `setUint32` is the argument reduced modulo 2^32 into 0..2^32-1 |
| Bytes.Int16RoundTrip | utils/audio.js:66 | reading back the two's-complement bits written for a 16-bit sample gives the sample |
| Bytes.DecodeEncode16 | utils/audio.js:74-77 | decoding the two little-endian bytes written for a 16-bit value gives the value back |
| Bytes.EncodeDecode16 | utils/audio.js:74-77 | any two bytes are the little-endian encoding of what they decode to |
| Bytes.DecodeEncode32 | utils/audio.js:79-82 | decoding the four little-endian bytes written for a 32-bit value gives the value back |
| Bytes.EncodeDecode32 | utils/audio.js:79-82 | any four bytes are the little-endian encoding of what they decode to |
| Wav.Clamp | utils/audio.js:64 | the clamped sample lies in [-1, 1], equals the input inside that range, and saturates outside it |
| Wav.Trunc | utils/audio.js:66 | `setInt16`'s conversion truncates toward zero: within 1 of the real, never farther from zero |
| Wav.Quantize | utils/audio.js:64-66 | a sample becomes a 16-bit value; non-negative inputs land in 0..32767, negative ones in -32768..0, and inputs beyond ±1 saturate |
| Wav.QuantizeDequantize | utils/audio.js:64-66 | every 16-bit value is reached: quantizing its real counterpart gives it back |
| Wav.DequantizeQuantize | utils/audio.js:64-66 | quantization loses less than one step: under 1/32767 above zero, under 1/32768 below |
| Wav.QuantizeMonotone | utils/audio.js:64-66 | a louder sample never encodes to a smaller value |
| Wav.TagsSpellIdentifiers | utils/audio.js:43-54 | the four 32-bit tag constants, written little-endian, spell "RIFF", "WAVE", "fmt " and "data" |
| Wav.HeaderLayout | utils/audio.js:43-55 | each of the 13 header fields sits at its offset with its value: the tags, sizes length-8 and length-44, fmt size 16, format 1, channel count, rate, byte rate rate·2·channels, block align channels·2, 16 bits, each reduced to its field width |
| Wav.ParseHeaderOfHeader | utils/audio.js:43-55 | parsing a written header recovers the channel count, sample rate and file length whenever they fit their fields |
| Wav.HeaderOfParseHeader | utils/audio.js:43-55 | any 44 bytes that parse as a header are exactly the header written for what they parse to |
| Wav.ParseFmtOfFmt | utils/audio.js:46-53 | the fmt chunk parses back to its channel count and sample rate |
| Wav.FmtOfParseFmt | utils/audio.js:46-53 | a parsable fmt chunk is the chunk written for its parsed values |
| Wav.RiffOfBytes | utils/audio.js:43-45 | twelve bytes that start with "RIFF" and end with "WAVE" are the descriptor written for the size they carry |
| Wav.DataOfBytes | utils/audio.js:54-55 | eight bytes starting with "data" are the chunk header written for the size they carry |
| Wav.SetUint16 | utils/audio.js:74-77 | writes two bytes at the cursor, advances it by 2, decodes to the wrapped value and leaves every other byte alone |
| Wav.SetUint32 | utils/audio.js:79-82 | writes four bytes at the cursor, advances it by 4, decodes to the wrapped value and leaves every other byte alone |
| Wav.SetInt16 | utils/audio.js:66-67 | writes the truncated sample as two's complement at the cursor and advances by 2, touching nothing else |
| Wav.WriteFmt | utils/audio.js:46-53 | the eight writes after "WAVE" lay down exactly the fmt chunk and keep the bytes before it |
| Wav.WriteHeader | utils/audio.js:43-55 | the thirteen header writes leave the 44-byte header for the buffer's channel count, rate and total length |
| Wav.SampleOffsetInjective | utils/audio.js:62-70 | distinct (frame, channel) pairs occupy disjoint two-byte slots |
| Wav.SampleSlotCovers | utils/audio.js:62-70 | every byte after the header belongs to exactly one (frame, channel) slot |
| Wav.NextFrame | utils/audio.js:63-69 | one pass of the inner loop moves the write position by two bytes per channel |
| Wav.FramesDone | utils/audio.js:62-70 | the outer loop stops exactly after the last frame when there is at least one channel |
| Wav.WriteFrame | utils/audio.js:63-69 | one frame writes each channel's quantized sample into its slot and keeps earlier bytes |
| Wav.AudioBufferToWav | utils/audio.js:32-83 | the output has length frames·channels·2 + 44, starts with the header for that length, and each slot reads back the quantized sample of its channel and frame |
| Transforms.FirstLoud | utils/audio.js:147-152 | the forward scan finds the first sample louder than the threshold, or reports that none is |
| Transforms.LastLoud | utils/audio.js:154-159 | the backward scan finds the last sample louder than the threshold, or reports that none is |
| Transforms.FirstLoudUnique | utils/audio.js:147-152 | a loud sample with only quiet samples before it is the one the forward scan finds |
| Transforms.LastLoudUnique | utils/audio.js:154-159 | a loud sample with only quiet samples after it is the one the backward scan finds |
| Transforms.FindStart | utils/audio.js:144-152 | the loop with `break` returns the first loud index, or 0 when nothing is loud |
| Transforms.FindEnd | utils/audio.js:145-159 | the loop with `break` returns the last loud index, or the last index when nothing is loud |
| Transforms.Slice | utils/audio.js:163-175 | the new buffer has the requested length, the same rate and channel count, and sample i of each channel is the original sample start+i |
| Transforms.TrimSilence | utils/audio.js:138-178 | as written: an error without channels; otherwise a result exactly when start < end, namely the half-open slice [start, end) |
| Transforms.TrimSilenceBounds | utils/audio.js:144-175 | the kept frames run from the first loud sample up to but excluding the last; a quiet buffer of two or more frames loses only its last frame |
| Transforms.TrimDropsLastLoud | utils/audio.js:162 | channel 0 = [0, 0.5, 0.5, 0] at threshold 0.01 keeps only one of its two loud samples |
| Transforms.TrimSilenceInclusive | utils/audio.js:162-175 | corrected trim: fails exactly when there is no channel or no frame |
| Transforms.TrimInclusiveKeepsLoud | utils/audio.js:162-175 | the corrected trim keeps every loud sample at its offset from the first one, starts and ends on a loud sample, and leaves a quiet buffer unchanged |
| Transforms.TrimSilenceToWav | utils/audio.js:138-178 | the trim pipeline as written, with `end - start` frames: succeeds exactly when the half-open trim does, and its WAV carries that buffer's header and each of its samples, slot by slot |
| Transforms.TrimRejectsSingleLoudSample | utils/audio.js:162-167 | channel 0 = [0, 0.5, 0] at threshold 0.01: as written the trimmed length is 0, so the buffer cannot be created; the corrected trim keeps [0.5] |
| Transforms.TrimSilenceInclusiveToWav | utils/audio.js:138-178 | the same pipeline with `end - start + 1` frames: succeeds exactly when the corrected trim does, and its WAV encodes the corrected buffer slot by slot |
| Transforms.PeakUnique | utils/audio.js:188-194 | a buffer has one peak amplitude |
| Transforms.ZeroPeakIsSilence | utils/audio.js:188-197 | a zero peak means every sample is zero, which is when the factor `0.95 / peak` is undefined |
| Transforms.FindPeak | utils/audio.js:188-194 | the nested loops return the peak: no sample is louder and some sample attains it, or the buffer is silent |
| Transforms.ChannelPeak | utils/audio.js:191-193 | one channel's running maximum bounds every sample and is attained unless it is 0 |
| Transforms.PeakUpTo | utils/audio.js:189-194 | the maximum over the first n channels bounds each of them and is attained in one of them unless it is 0 |
| Transforms.Peak | utils/audio.js:188-194 | the peak amplitude of the whole buffer |
| Transforms.ScaleChannel | utils/audio.js:202-204 | each sample is multiplied by the factor, in place and in order |
| Transforms.ScaleBuffer | utils/audio.js:200-205 | every channel is scaled; rate, length and channel count are kept |
| Transforms.ScaledPeak | utils/audio.js:197-205 | scaling a buffer by a positive factor scales its peak by the same factor |
| Transforms.NormalizedPeak | utils/audio.js:197-205 | after normalization the peak amplitude is exactly 0.95 |
| Transforms.NormalizeAudio | utils/audio.js:183-205 | there is no factor exactly when the peak is 0; otherwise the buffer is scaled by 0.95/peak and its new peak is 0.95 |
| Transforms.NormalizeAudioToWav | utils/audio.js:183-207 | the WAV of a normalized buffer has the header of the input and holds each scaled sample quantized; a silent input encodes to all-zero samples |
| JsObject.IndexOf | lab.js:24 | a key's position is the first entry with that key, and there is none exactly when the key is absent |
| JsObject.Get | lab.js:101-102 | a lookup finds a value exactly when the key is present, and the value is stored under that key |
| JsObject.GetPutSame | lab.js:24 | after assigning a property, reading it gives the assigned value |
| JsObject.GetPutOther | lab.js:24 | assigning one property leaves every other property's value unchanged |
| JsObject.PutKeys | lab.js:23-27 | assigning keeps keys distinct: an existing key keeps its place, a new key is appended last |
| Decimal.ParseNatToString | lab.js:539 | the decimal text of a count parses back to the count |
| Decimal.NatToStringInjective | lab.js:500 | distinct numbers have distinct decimal texts |
| Stats.ScoredEntriesSound | lab.js:174-176 | every listed score comes from a result with that adapter name and score |
| Stats.ScoredEntriesComplete | lab.js:174-176 | every result with a defined score is listed |
| Stats.ScoredEntriesEmpty | lab.js:174-178 | the score list is empty exactly when no result has a score |
| Stats.Min | lab.js:182 | the minimum is one of the scores and no score is smaller |
| Stats.Max | lab.js:181 | the maximum is one of the scores and no score is larger |
| Stats.Outliers | lab.js:194-198 | the flagged scores are exactly those whose squared deviation from the mean exceeds 2.25 times the variance |
| Stats.Summarize | lab.js:180-198 | the statistics of a non-empty score list: avg is the mean and variance the mean squared deviation, spread is max − min, min and max bound every score and are attained, and the outliers are exactly the scores more than 1.5 deviations from the mean |
| Stats.Mean | lab.js:180 | n times the average is the sum of the scores |
| Stats.Variance | lab.js:190-192 | n times the variance is the sum of squared deviations from the mean |
| Stats.MeanBetween | lab.js:180-182 | the average of scores between two bounds lies between them |
| Stats.EqualMoments | lab.js:180-192 | equal scores have that score as average and a variance of zero |
| Stats.CompareResults | lab.js:173-178 | there is no comparison exactly when no result has a score |
| Stats.SummaryOrdered | lab.js:180-192 | min ≤ avg ≤ max, the spread and the variance are non-negative |
| Stats.EqualScoresNoOutliers | lab.js:180-198 | equal scores have that score as mean, zero spread and variance, and no outlier |
| Stats.OutliersMinority | lab.js:190-198 | outliers exist only when the variance is positive, and fewer than 4/9 of the scores are outliers (Chebyshev) |
| Stats.OutlierExample | lab.js:173-198 | scores 90, 92, 88, 40 plus an unscored result: mean 77.5, variance 470.75, and only 40 is an outlier |
| Display.ClassOf | lab.js:137 | good exactly from 80, warning exactly from 60 below 80, bad exactly below 60 |
| Display.ClassMonotone | lab.js:137 | a higher score never gets a worse class |
| Display.DetailRows | lab.js:146-158 | a row for each detail whose value is neither undefined nor null, and for no other |
| Display.DetailRowsAppend | lab.js:147-158 | rows keep insertion order: an added shown detail adds its row last, a hidden one adds none |
| Display.FormatResults | lab.js:133-168 | a score row first exactly when the score is defined, with its class; then only shown detail rows, each detail shown; the time row last |
| Display.FormatResultsTimeOnly | lab.js:133-168 | a result without score and with only null or undefined details shows just its time |
| Display.PhraseLabel | lab.js:489 | a phrase of at most 20 characters is shown whole; a longer one shows its first 20 characters followed by "..." |
| Display.PhraseLabelShowsPrefix | lab.js:489 | a label is at most 23 characters and what it shows of the phrase is a prefix of it |
| Display.QuickPhraseButtons | lab.js:482-507 | one button per phrase, in order, with its label, title and phrase; a shortcut exactly for the first nine |
| Display.ShortcutsDistinct | lab.js:498-500 | each shortcut is a single digit 1-9 and no two buttons share one |
| Display.StatusLine | lab.js:517-540 | no adapters gives "No APIs configured" with class error; otherwise "Connected: c/t APIs", class connected iff c = t, warning iff 0 < c < t, error iff c = 0 |
| Display.StatusLineReadsBack | lab.js:539 | both counts can be parsed back from the status text |
| Display.CountWhereAll | lab.js:523-537 | the counter reaches the total exactly when every adapter is counted |
| Display.CountWhereNone | lab.js:523-537 | the counter stays 0 exactly when no adapter is counted |
| Display.TestConnections | lab.js:512-541 | as written: the text is "Connected: c/t APIs" with c the probes that did not throw; connected iff no probe threw, error iff every probe threw, whatever the probes resolved to |
| Display.FailedProbeReportedConnected | lab.js:527-529 | one adapter whose probe resolved to false is reported "Connected: 1/1 APIs" |
| Display.TestConnectionsCorrected | lab.js:512-541 | corrected: the text counts adapters with no probe or a probe that resolved to true; connected iff every adapter is counted |
| Display.CorrectedCountsFewer | lab.js:523-537 | the corrected count never exceeds the count as written |
| Lab.Init | lab.js:5-18 | a new lab has no adapters, results, timings or audio, zero cost, and the saved sessions, which share nothing with the lab |
| Lab.RegisterAPI | lab.js:23-27 | the name maps to the adapter, other names keep theirs, a new name is appended, a re-registered one keeps its place; nothing else changes |
| Lab.RegisterKeepsNamesUnique | lab.js:23-27 | registration keeps adapter names distinct |
| Lab.CallCost | lab.js:105-108 | a call costs `COSTS[name] / 100` when that price is truthy, nothing otherwise |
| Lab.TestSingle | lab.js:78-129 | without audio, for an unknown name or when the adapter throws, nothing changes; on success result and time are stored under the name and the cost added; other names are untouched |
| Lab.TestEachResults | lab.js:56-73 | after the run each name holds its own successful result and time, or what it held before |
| Lab.TestEachCostsGrow | lab.js:105-108 | with non-negative prices the session cost never decreases |
| Lab.TestEachAllFail | lab.js:120-128 | when every adapter throws the run changes nothing |
| Lab.TestAll | lab.js:56-73 | without audio nothing happens and nothing is compared; otherwise the comparison is of the results after the run |
| Lab.TestAllResults | lab.js:56-73 | after `testAll` every registered adapter that succeeded holds its result; every other name keeps what it had |
| Lab.Clear | lab.js:311-313 | results and timings become new empty objects; adapters, audio and cost are kept; every session keeps its id, cost and the results and timings it showed, and none shares the lab's objects any more |
| Lab.ClearLeavesNothingToCompare | lab.js:311-313 | after clearing there is nothing to compare, and clearing twice is clearing once |
| Lab.SaveSession | lab.js:254-266 | one session is appended holding the lab's own results and timings objects (shared, not copied) and the current cost; nothing else changes |
| Lab.SessionSurvivesClear | lab.js:254-313 | a saved session still shows its results and timings after `clear`, which replaces the lab's objects instead of emptying them |
| Lab.SavedSessionSeesLaterTest | lab.js:101-102 | a test that succeeds after `saveSession` is written into the shared results object, so the saved session shows it, before and after `clear` |
| Lab.LabConnections | lab.js:512-541 | as written, over the registered adapters in order: the text is "Connected: c/t APIs" with c the adapters whose probe did not throw; connected iff no probe threw, error iff every probe threw |
| Lab.LabConnectionsCorrected | lab.js:512-541 | corrected: c counts adapters without a probe or whose probe resolved to true; connected iff all do, error iff every probe threw or resolved to false |
| Http.StatusText | apis/azure.js:42 | an error text starts with its prefix and has the length of its parts |
| Http.StatusTextReadsBack | apis/azure.js:42 | the status code and the detail can be read back from an error text |
| Azure.Create | apis/azure.js:5-9 | the key is kept, the region falls back to eastus when missing or empty, and the endpoint is as long as scheme, region and host suffix together |
| Azure.EndpointNamesRegion | apis/azure.js:7-8 | the endpoint `https://<region>.stt.speech.microsoft.com` names exactly the adapter's region |
| Azure.RequestUrl | apis/azure.js:27 | the request URL starts with the endpoint and ends with the language |
| Azure.ScoreWord | apis/azure.js:69-73 | a word keeps its text, accuracy and error type, absent when the word has no assessment |
| Azure.NormalizeResponse | apis/azure.js:60-86 | fails with "No pronunciation assessment in response" exactly when NBest[0] has no assessment; otherwise score = PronScore \|\| 0, the four scores copied, words mapped one to one and absent when empty, raw kept |
| Azure.ScoreIsPronunciation | apis/azure.js:76-81 | the score equals the pronunciation detail when that is a non-zero number, and is 0 otherwise |
| Azure.NormalizeRecoversAssessment | apis/azure.js:60-86 | a response built from an assessment and its words normalizes back to them |
| Azure.AsStandard | apis/azure.js:75-85 | the standardized result always has a score and lists accuracy, fluency, completeness, pronunciation and words in that order; each of the four scores is its number or undefined when absent, and words is a list exactly when there are words |
| Azure.Test | apis/azure.js:11-52 | transport errors pass through, a non-OK status gives "Azure API error: <status> - <body>", an OK response is normalized; success exactly on OK with an assessment |
| Azure.TestConnection | apis/azure.js:88-106 | resolves exactly when a response arrives, to true exactly for status 405 or 200-299; a transport failure becomes "Azure connection test failed: <message>" |
| SpeechSuper.Create | apis/speechsuper.js:5-9 | the key is kept, the app id falls back to "default" when missing or empty |
| SpeechSuper.LanguageOf | apis/speechsuper.js:17-25 | zh-CN and zh-TW map to zh-cmn, ja-JP to jp, ko-KR to ko, and every other language to en |
| SpeechSuper.CoreType | apis/speechsuper.js:28 | the core type is word.eval.cn exactly for zh-cmn |
| SpeechSuper.CoreTypeOfLanguage | apis/speechsuper.js:17-28 | the Chinese evaluator is chosen exactly for zh-CN and zh-TW |
| SpeechSuper.DetailPhoneme | apis/speechsuper.js:81-85 | a phoneme keeps its phone, its pronunciation as score and its sound_like as soundLike |
| SpeechSuper.DetailWord | apis/speechsuper.js:78-86 | a word keeps its text and overall score; its phonemes are mapped one to one and absent when the word has none |
| SpeechSuper.NormalizeResponse | apis/speechsuper.js:68-106 | fails with "SpeechSuper error: <e>" exactly when the error is truthy; otherwise score = overall \|\| 0, four scores copied, words mapped and absent when empty, tones present exactly when the first word has tone scores |
| SpeechSuper.EmptyResponseScoresZero | apis/speechsuper.js:73-75 | a body without result normalizes to score 0 with no details; an empty error string is not an error |
| SpeechSuper.TonesFromFirstWordOnly | apis/speechsuper.js:89-92 | responses whose first words agree report the same tones |
| SpeechSuper.AsStandard | apis/speechsuper.js:94-105 | the standardized result always has a score and lists pronunciation, fluency, integrity, rhythm, words and tones in that order; each of the four scores is its number or undefined when absent, and words and tones are lists exactly when present |
| SpeechSuper.Test | apis/speechsuper.js:11-61 | transport errors pass through, a non-OK status gives "SpeechSuper API error: <status> - <body>", an OK response is normalized |
| SpeechSuper.TestConnection | apis/speechsuper.js:108-112 | never throws; true exactly when a non-empty API key is configured |
| Template.NormalizeResponse | apis/_template.js:86-103 | score = overall_score \|\| 0, accuracy, fluency and pronunciation copied, raw kept |
| Template.NormalizeKeepsRaw | apis/_template.js:86-103 | normalizing the kept raw response reproduces the result, and distinct responses normalize differently |
| Template.CallAPI | apis/_template.js:61-81 | transport errors pass through, a non-OK status gives "HTTP <status>: <statusText>", an OK response yields its body |
| Template.Test | apis/_template.js:23-38 | succeeds exactly on an OK response; every failure message is the call's message behind "API call failed: " |
| Template.RejectedStatusReadsBack | apis/_template.js:36-77 | a rejected call's message starts "API call failed: HTTP ", carries the parsable status and ends with the status text |
| Template.StatusUrl | apis/_template.js:111 | the probe URL is the endpoint followed by /status |
| Template.TestConnection | apis/_template.js:108-121 | resolves exactly when a response arrives, to true exactly for status 200-299; a transport failure becomes "Connection test failed: <message>" |
| Template.AsStandard | apis/_template.js:88-102 | the standardized result always has a score and lists accuracy, fluency and pronunciation in that order, each its number or undefined when absent |
| Pipeline.OutcomeOf | lab.js:97-102 | an adapter call that resolves is a success with its result and time; one that throws is a failure with its message |
| Pipeline.AzureOutcome | lab.js:97-102 | an Azure test succeeds exactly on an OK response with an assessment, scored PronScore \|\| 0 with its time; otherwise the failure carries the transport message, the "Azure API error" text or the missing-assessment text |
| Pipeline.SpeechSuperOutcome | lab.js:97-102 | a SpeechSuper test succeeds exactly on an OK response without a truthy error, scored overall \|\| 0 with its time; otherwise the failure carries the transport message, the "SpeechSuper API error" text or "SpeechSuper error: <e>" |
| Pipeline.TemplateOutcome | lab.js:97-102 | a template test succeeds exactly on an OK response, scored overall_score \|\| 0 with its time; every failure message starts "API call failed: " |
| Pipeline.SuccessfulTestIsCompared | lab.js:101-178 | after a successful scored test, `compareResults` has statistics and the adapter's score is among them |
| Pipeline.RejectedAzureKeyReportedConnected | lab.js:527-540 | an Azure probe answered 401 resolves to false, is reported connected as written, and failed when corrected |
| Pipeline.MissingSpeechSuperKeyReportedConnected | lab.js:527-540 | SpeechSuper without a key resolves to false, is reported connected as written, and failed when corrected |

## Left out

- **Audio decoding and I/O** (`convertToWAV`, `audioToBase64`, `getAudioDuration`, `resampleAudio`, `decodeAudioData` inside `trimSilence` and `normalizeAudio`): these are browser decoding and resampling. The decoded buffer is the input, and the WAV is returned as bytes, not as a `Blob`.
- **Web Audio exceptions**: a missing channel 0 and a `createBuffer` length below 1 become `Err` values with a descriptive text.
- **Floating point** (sample rates, sample values, scores):
  - Sample rates are unbounded naturals; only the header's explicit 32-bit and 16-bit wrap is modelled.
  - Arithmetic on samples and scores is exact. Rounding of `0.95 / peak`, of the scaled samples and of the running sums is not modelled.
  - `Math.sqrt` is avoided: the outlier test compares squares, which is equivalent because both sides are non-negative.
- Transforms.NormalizeAudio: for a silent buffer the code divides by zero. The samples become NaN and `setInt16` writes them as 0. The model returns no factor and an all-zero WAV instead of computing with NaN.
- **DOM, logging and display strings**: panels, the terminal, the JSON viewer, the cost display and `toFixed` rounding. A display row carries the number it shows, not its text.
- **Recording and file upload**: media capture, `MediaRecorder` and the file input only set whether audio is present.
- **Session storage**: `localStorage` loading and saving, the session download, and the session's timestamp, phrase, language and audio size. A session's results and timings are modelled as the lab's shared objects; the JSON copy written to storage is not.
- **Concurrency**: `Promise.all` in `testAll` runs the adapters concurrently. The model runs them one after another in registration order, so the order in which results are first inserted follows registration, not completion.
- **Timing and pricing as inputs**: `performance.now()` timings are part of each adapter `Outcome`. Prices are an input list standing for `config.COSTS`.
- Lab.TestSingle: for a name that was never registered, the code throws while touching the missing panel, before its `try`. The model leaves the state unchanged.
- **HTTP and JSON**:
  - HTTP requests are not modelled: the `fetch` call, headers, `FormData`, `btoa` of the assessment settings, timeouts and retries.
  - JSON parsing is not modelled: an adapter receives its parsed body as a typed value.
  - Bodies that fail to parse or are not objects (`null`, numbers) are outside the model.
- SpeechSuper.NormalizeResponse: only string `error` values are modelled; a truthy non-string error is not.
- SpeechSuper.LanguageOf: language strings that name inherited object properties, such as `constructor`, are not modelled. The code would read the inherited value from `langMap`.
- Tone details and word lists are carried as opaque `Structured` values when they reach the lab's detail rows.
- **Capability lists and configuration**: `getCapabilities`, `config.example.js` and the template's `timeout` and `maxRetries` settings are constant data that nothing in the core reads.
- **Object key order**: JavaScript lists integer-like keys before other keys. The model keeps pure insertion order.
- Display.PhraseLabel: counts characters. JavaScript's `substring` and `length` count UTF-16 code units, so the two differ for characters outside the Basic Multilingual Plane.

## Findings

| source | as written | input that shows it | evidently intended | confidence | as-written member | corrected member |
|---|---|---|---|---|---|---|
| utils/audio.js:162 | `trimmedLength = end - start` keeps the half-open range, so the last loud sample is dropped, and a single loud sample gives length 0 | channel 0 = [0, 0.5, 0.5, 0], threshold 0.01: two loud samples, the trimmed buffer holds one; channel 0 = [0, 0.5, 0]: length 0, so `createBuffer` throws | `end - start + 1`, the closed range from the first to the last loud sample | high, not executed | Transforms.TrimSilence, Transforms.TrimSilenceToWav, Transforms.TrimDropsLastLoud, Transforms.TrimRejectsSingleLoudSample | Transforms.TrimSilenceInclusive, Transforms.TrimSilenceInclusiveToWav, Transforms.TrimInclusiveKeepsLoud |
| lab.js:527-529 | the value `testConnection()` resolves to is ignored; only a throw counts as a failure | Azure answers 401, so its probe resolves to false, yet the status reads "Connected: 1/1 APIs" | count an adapter only when its probe resolves to true (or it has no probe) | medium, not executed | Display.TestConnections, Lab.LabConnections, Display.FailedProbeReportedConnected | Display.TestConnectionsCorrected, Lab.LabConnectionsCorrected, Display.CorrectedCountsFewer |
