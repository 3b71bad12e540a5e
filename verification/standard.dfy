/** The standardized result every adapter returns and the lab consumes:
    `{score, details, raw}`. The lab reads only `score` and the entries of
    `details`, so `raw` stays with each adapter's own result type. */
module Standard {
  import opened Wrappers

  /** A detail value as `formatResults` sees it. */
  datatype Value = Undefined | Null | Num(n: real) | Text(s: string) | Structured

  /** `details`, enumerated by `Object.entries` in insertion order. */
  type Details = seq<(string, Value)>

  datatype StandardResult = StandardResult(score: Option<real>, details: Option<Details>)

  /** The number a detail value holds, if it is one (`typeof v === 'number'`). */
  function NumberOf(v: Value): Option<real> {
    if v.Num? then Some(v.n) else None
  }

  /** An optional number as a detail value; reading it back gives the
      optional number. */
  function NumOrUndefined(x: Option<real>): (v: Value)
    ensures v.Undefined? <==> x.None?
    ensures NumberOf(v) == x
  {
    match x
    case Some(n) => Num(n)
    case None => Undefined
  }

  /** An optional list as a detail value: present lists are structured. */
  function ListOrUndefined<T>(x: Option<seq<T>>): (v: Value)
    ensures v.Undefined? <==> x.None?
    ensures v.Structured? <==> x.Some?
  {
    if x.Some? then Structured else Undefined
  }
}
