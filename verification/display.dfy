/** What the lab shows: the rows `formatResults` builds for one result, the
    quick-phrase buttons and the connection status line. The HTML markup
    and `toFixed` rounding are not modelled; a row carries the number it
    displays. */
module Display {
  import opened Wrappers
  import opened Standard
  import opened Decimal

  /** The CSS class of a displayed score: `good`, `warning` or `bad`. */
  datatype ScoreClass = Good | Warning | Bad

  /** The class of a displayed score: good from 80, warning from 60. */
  function ClassOf(score: real): (c: ScoreClass)
    ensures c == Good <==> score >= 80.0
    ensures c == Warning <==> 60.0 <= score < 80.0
    ensures c == Bad <==> score < 60.0
  {
    if score >= 80.0 then Good else if score >= 60.0 then Warning else Bad
  }

  /** A higher score never gets a worse class. */
  lemma ClassMonotone(a: real, b: real)
    requires a <= b
    ensures ClassOf(a) == Good ==> ClassOf(b) == Good
    ensures ClassOf(b) == Bad ==> ClassOf(a) == Bad
  {
  }

  datatype Row = ScoreRow(score: real, grade: ScoreClass)
               | DetailRow(key: string, value: Value)
               | TimeRow(elapsed: real)

  predicate Shown(v: Value) {
    !v.Undefined? && !v.Null?
  }

  /** The detail rows: the entries whose value is neither `undefined` nor
      `null`, in insertion order. */
  function DetailRows(details: Details): (r: seq<Row>)
    ensures |r| <= |details|
    ensures forall k :: 0 <= k < |r| ==>
              r[k].DetailRow? && Shown(r[k].value) && (r[k].key, r[k].value) in details
    ensures forall i :: 0 <= i < |details| && Shown(details[i].1) ==>
              DetailRow(details[i].0, details[i].1) in r
    decreases |details|
  {
    if |details| == 0 then []
    else
      var rest := DetailRows(details[1..]);
      assert forall i :: 1 <= i < |details| ==> details[i] == details[1..][i - 1];
      if Shown(details[0].1) then [DetailRow(details[0].0, details[0].1)] + rest else rest
  }

  /** Hidden values never shift the rows of shown ones: appending a hidden
      entry adds no row, appending a shown one adds its row last. */
  lemma {:induction false} DetailRowsAppend(details: Details, key: string, v: Value)
    ensures DetailRows(details + [(key, v)]) ==
            DetailRows(details) + (if Shown(v) then [DetailRow(key, v)] else [])
    decreases |details|
  {
    if |details| > 0 {
      assert (details + [(key, v)])[1..] == details[1..] + [(key, v)];
      DetailRowsAppend(details[1..], key, v);
    }
  }

  /** `formatResults(result, elapsed)`. */
  function FormatResults(result: StandardResult, elapsed: real): (rows: seq<Row>)
    ensures |rows| >= 1 && rows[|rows| - 1] == TimeRow(elapsed)
    ensures rows[0].ScoreRow? <==> result.score.Some?
    ensures result.score.Some? ==> rows[0] == ScoreRow(result.score.value, ClassOf(result.score.value))
    ensures forall k :: 0 < k < |rows| - 1 ==> rows[k].DetailRow?
    ensures forall k :: 0 <= k < |rows| - 1 && rows[k].DetailRow? ==>
              result.details.Some? && Shown(rows[k].value) && (rows[k].key, rows[k].value) in result.details.value
    ensures result.details.Some? ==>
              forall i :: 0 <= i < |result.details.value| && Shown(result.details.value[i].1) ==>
                DetailRow(result.details.value[i].0, result.details.value[i].1) in rows
  {
    var scoreRows := if result.score.Some? then [ScoreRow(result.score.value, ClassOf(result.score.value))] else [];
    var detailRows := if result.details.Some? then DetailRows(result.details.value) else [];
    scoreRows + detailRows + [TimeRow(elapsed)]
  }

  /** A result with neither score nor shown detail displays only its time. */
  lemma FormatResultsTimeOnly(elapsed: real)
    ensures FormatResults(StandardResult(None, None), elapsed) == [TimeRow(elapsed)]
    ensures FormatResults(StandardResult(None, Some([("note", Null), ("raw", Undefined)])), elapsed) == [TimeRow(elapsed)]
  {
    var details: Details := [("note", Null), ("raw", Undefined)];
    assert DetailRows(details[2..]) == [];
    assert DetailRows(details[1..]) == [];
  }

  const LABEL_WIDTH: nat := 20

  /** A quick-phrase button's text: at most 20 characters of the phrase,
      followed by "..." exactly when the phrase is longer. */
  function PhraseLabel(phrase: string): (caption: string)
    ensures |phrase| <= LABEL_WIDTH ==> caption == phrase
    ensures |phrase| > LABEL_WIDTH ==>
              |caption| == LABEL_WIDTH + 3 && caption[..LABEL_WIDTH] == phrase[..LABEL_WIDTH] &&
              caption[LABEL_WIDTH..] == "..."
  {
    if |phrase| > LABEL_WIDTH then phrase[..LABEL_WIDTH] + "..." else phrase
  }

  /** A label never exceeds 23 characters, and the phrase it shows begins
      the phrase it stands for. */
  lemma PhraseLabelShowsPrefix(phrase: string)
    ensures |PhraseLabel(phrase)| <= LABEL_WIDTH + 3
    ensures var shown := if |phrase| > LABEL_WIDTH then PhraseLabel(phrase)[..LABEL_WIDTH] else PhraseLabel(phrase);
            shown <= phrase
  {
  }

  /** One quick-phrase button: label, tooltip, the phrase it loads, and
      the Ctrl+digit key that clicks it. */
  datatype PhraseButton = PhraseButton(caption: string, title: string, phrase: string, shortcut: Option<string>)

  /** `loadQuickPhrases`: one button per phrase, shortcuts for the first
      nine, keyed `String(index + 1)`. */
  function QuickPhraseButtons(phrases: seq<string>): (buttons: seq<PhraseButton>)
    ensures |buttons| == |phrases|
    ensures forall i :: 0 <= i < |phrases| ==>
              buttons[i].caption == PhraseLabel(phrases[i]) &&
              buttons[i].title == phrases[i] && buttons[i].phrase == phrases[i]
    ensures forall i :: 0 <= i < |phrases| ==> (buttons[i].shortcut.Some? <==> i < 9)
  {
    seq(|phrases|, i requires 0 <= i < |phrases| =>
      PhraseButton(PhraseLabel(phrases[i]), phrases[i], phrases[i],
                   if i < 9 then Some(NatToString(i + 1)) else None))
  }

  /** Each shortcut is a single digit 1-9 and no two buttons share one. */
  lemma ShortcutsDistinct(phrases: seq<string>, i: nat, j: nat)
    requires i < |phrases| && j < |phrases| && i != j
    requires QuickPhraseButtons(phrases)[i].shortcut.Some?
    requires QuickPhraseButtons(phrases)[j].shortcut.Some?
    ensures QuickPhraseButtons(phrases)[i].shortcut != QuickPhraseButtons(phrases)[j].shortcut
    ensures |QuickPhraseButtons(phrases)[i].shortcut.value| == 1
    ensures QuickPhraseButtons(phrases)[i].shortcut.value[0] in "123456789"
  {
    var b := QuickPhraseButtons(phrases);
    if b[i].shortcut == b[j].shortcut {
      NatToStringInjective(i + 1, j + 1);
    }
    assert b[i].shortcut.value == NatToString(i + 1) == [DigitChar(i + 1)];
  }

  /** The CSS class of the connection status: `connected`, `warning`
      (some adapters connected) or `error`. */
  datatype StatusClass = Connected | Partial | Failed

  datatype ConnectionStatus = ConnectionStatus(text: string, kind: StatusClass)

  /** The probe of one adapter: it has no `testConnection`, or the call
      resolved to a boolean, or it threw with a message. */
  datatype Probe = NoProbe | Resolved(ok: bool) | Threw(message: string)

  /** A `testConnection()` call seen from `testConnections`. */
  function ProbeOf(r: Result<bool>): (p: Probe)
    ensures p.Threw? <==> r.Err?
  {
    match r
    case Ok(b) => Resolved(b)
    case Err(m) => Threw(m)
  }

  /** The status line for `connected` of `total` adapters. */
  function StatusLine(connected: nat, total: nat): (s: ConnectionStatus)
    requires connected <= total
    ensures total == 0 ==> s == ConnectionStatus("No APIs configured", Failed)
    ensures total > 0 ==> s.text == "Connected: " + NatToString(connected) + "/" + NatToString(total) + " APIs"
    ensures total > 0 ==> (s.kind == Connected <==> connected == total)
    ensures total > 0 ==> (s.kind == Partial <==> 0 < connected < total)
    ensures s.kind == Failed <==> connected == 0
  {
    if total == 0 then ConnectionStatus("No APIs configured", Failed)
    else
      var kind := if connected == total then Connected else if connected > 0 then Partial else Failed;
      ConnectionStatus("Connected: " + NatToString(connected) + "/" + NatToString(total) + " APIs", kind)
  }

  /** The counts can be read back from the status text. */
  lemma StatusLineReadsBack(connected: nat, total: nat)
    requires connected <= total && total > 0
    ensures var t := StatusLine(connected, total).text;
            var a := NatToString(connected);
            var b := NatToString(total);
            t[..11] == "Connected: " && t[11..11 + |a|] == a && t[11 + |a|] == '/' &&
            t[12 + |a|..12 + |a| + |b|] == b && t[12 + |a| + |b|..] == " APIs" &&
            ParseNat(t[11..11 + |a|]) == connected && ParseNat(t[12 + |a|..12 + |a| + |b|]) == total
  {
    var a := NatToString(connected);
    var b := NatToString(total);
    Segments("Connected: ", a, "/", b, " APIs");
    ParseNatToString(connected);
    ParseNatToString(total);
  }

  /** As written: an adapter counts as connected unless its probe threw,
      whatever boolean the probe resolved to. */
  predicate CountedAsWritten(p: Probe) {
    !p.Threw?
  }

  /** Corrected: a probe that resolved to `false` is a failed connection. */
  predicate CountedCorrected(p: Probe) {
    p.NoProbe? || p == Resolved(true)
  }

  function CountWhere(probes: seq<Probe>, counted: Probe -> bool): (n: nat)
    ensures n <= |probes|
    decreases |probes|
  {
    if |probes| == 0 then 0
    else (if counted(probes[0]) then 1 else 0) + CountWhere(probes[1..], counted)
  }

  /** The counter reaches the total exactly when every probe is counted. */
  lemma {:induction false} CountWhereAll(probes: seq<Probe>, counted: Probe -> bool)
    ensures CountWhere(probes, counted) == |probes| <==> forall i :: 0 <= i < |probes| ==> counted(probes[i])
    decreases |probes|
  {
    if |probes| > 0 {
      CountWhereAll(probes[1..], counted);
      assert forall i :: 1 <= i < |probes| ==> probes[i] == probes[1..][i - 1];
    }
  }

  /** The counter stays at zero exactly when no probe is counted. */
  lemma {:induction false} CountWhereNone(probes: seq<Probe>, counted: Probe -> bool)
    ensures CountWhere(probes, counted) == 0 <==> forall i :: 0 <= i < |probes| ==> !counted(probes[i])
    decreases |probes|
  {
    if |probes| > 0 {
      CountWhereNone(probes[1..], counted);
      assert forall i :: 1 <= i < |probes| ==> probes[i] == probes[1..][i - 1];
    }
  }

  /** `testConnections` as written, over the probes of the registered
      adapters in registration order. */
  function TestConnections(probes: seq<Probe>): (s: ConnectionStatus)
    ensures |probes| == 0 ==> s == ConnectionStatus("No APIs configured", Failed)
    ensures |probes| > 0 ==>
              s.text == "Connected: " + NatToString(CountWhere(probes, CountedAsWritten)) + "/"
                        + NatToString(|probes|) + " APIs"
    ensures |probes| > 0 ==> (s.kind == Connected <==> forall i :: 0 <= i < |probes| ==> !probes[i].Threw?)
    ensures s.kind == Failed <==> forall i :: 0 <= i < |probes| ==> probes[i].Threw?
  {
    CountWhereAll(probes, CountedAsWritten);
    CountWhereNone(probes, CountedAsWritten);
    StatusLine(CountWhere(probes, CountedAsWritten), |probes|)
  }

  /** The discrepancy: one adapter whose probe resolved to `false` is
      reported as fully connected. */
  lemma FailedProbeReportedConnected()
    ensures TestConnections([Resolved(false)]) == ConnectionStatus("Connected: 1/1 APIs", Connected)
    ensures TestConnectionsCorrected([Resolved(false)]) == ConnectionStatus("Connected: 0/1 APIs", Failed)
  {
    assert CountWhere([Resolved(false)], CountedAsWritten) == 1 by {
      assert [Resolved(false)][1..] == [];
    }
    assert CountWhere([Resolved(false)], CountedCorrected) == 0 by {
      assert [Resolved(false)][1..] == [];
    }
    assert NatToString(1) == "1";
    assert NatToString(0) == "0";
  }

  /** `testConnections` counting only probes that resolved to `true` (or
      adapters without a probe). */
  function TestConnectionsCorrected(probes: seq<Probe>): (s: ConnectionStatus)
    ensures |probes| == 0 ==> s == ConnectionStatus("No APIs configured", Failed)
    ensures |probes| > 0 ==>
              s.text == "Connected: " + NatToString(CountWhere(probes, CountedCorrected)) + "/"
                        + NatToString(|probes|) + " APIs"
    ensures |probes| > 0 ==>
              (s.kind == Connected <==> forall i :: 0 <= i < |probes| ==> probes[i].NoProbe? || probes[i] == Resolved(true))
    ensures s.kind == Failed <==>
              forall i :: 0 <= i < |probes| ==> probes[i].Threw? || probes[i] == Resolved(false)
  {
    CountWhereAll(probes, CountedCorrected);
    CountWhereNone(probes, CountedCorrected);
    StatusLine(CountWhere(probes, CountedCorrected), |probes|)
  }

  /** The corrected count never exceeds the count as written. */
  lemma {:induction false} CorrectedCountsFewer(probes: seq<Probe>)
    ensures CountWhere(probes, CountedCorrected) <= CountWhere(probes, CountedAsWritten)
    decreases |probes|
  {
    if |probes| > 0 {
      CorrectedCountsFewer(probes[1..]);
    }
  }
}
