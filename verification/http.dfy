/** The part of `fetch` the adapters depend on: a call either fails in
    transport with a message or yields a response whose status, status
    text and body text the adapters read. Parsing the body as JSON is
    given to each adapter as an already-typed value. */
module Http {
  import opened Decimal

  datatype Response = Response(status: nat, statusText: string, body: string)

  datatype Fetch = Transport(message: string) | Got(response: Response)

  /** `response.ok`: the status is in the range 200-299. */
  predicate IsOk(r: Response) {
    200 <= r.status <= 299
  }

  /** An error text of the form `<prefix><status><separator><detail>`. */
  function StatusText(prefix: string, status: nat, separator: string, detail: string): (t: string)
    ensures |t| == |prefix| + |NatToString(status)| + |separator| + |detail|
    ensures t[..|prefix|] == prefix
  {
    prefix + NatToString(status) + separator + detail
  }

  /** The status can be read back from an error text, and the detail is
      its tail, whenever the separator does not start with a digit. */
  lemma StatusTextReadsBack(prefix: string, status: nat, separator: string, detail: string)
    requires |separator| > 0 && !IsDigit(separator[0])
    ensures var t := StatusText(prefix, status, separator, detail);
            var digits := |NatToString(status)|;
            t[|prefix|..|prefix| + digits] == NatToString(status) &&
            ParseNat(t[|prefix|..|prefix| + digits]) == status &&
            !IsDigit(t[|prefix| + digits]) &&
            t[|prefix| + digits..|prefix| + digits + |separator|] == separator &&
            t[|t| - |detail|..] == detail
  {
    var s := NatToString(status);
    var t := StatusText(prefix, status, separator, detail);
    assert t == prefix + s + separator + detail + "";
    Segments(prefix, s, separator, detail, "");
    assert t[|prefix| + |s|] == t[|prefix| + |s|..|prefix| + |s| + |separator|][0];
    ParseNatToString(status);
  }
}
