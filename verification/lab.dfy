/** The state of `PronunciationLab` and the operations that change it:
    registering adapters, testing one or all of them, clearing results and
    keeping a session snapshot. An adapter's `test` call is an `Outcome`
    supplied per adapter name; the audio, phrase and language it is called
    with stay fixed for a whole run. */
module Lab {
  import opened Wrappers
  import opened JsObject
  import opened Standard
  import opened Stats
  import opened Display
  import opened Decimal

  /** A registered adapter, known to the lab only by its identity. */
  datatype Adapter = Adapter(id: string)

  /** A saved session. `saveSession()` stores the lab's own `results` and
      `timings` objects, not copies: while `shared` holds, no `clear()` has
      replaced them yet, so the session sees every later test through them.
      `results` and `timings` hold their contents at the last point the
      session's view was fixed: when it was saved, and again when `clear()`
      detached it. */
  datatype Session = Session(id: nat, results: Entries<StandardResult>, timings: Entries<real>, costs: real,
                             shared: bool)

  datatype State = State(
    apis: Entries<Adapter>,
    hasAudio: bool,
    results: Entries<StandardResult>,
    timings: Entries<real>,
    costs: real,
    sessions: seq<Session>)

  /** What `api.test(...)` did: resolved with a result after `elapsed`
      milliseconds, or threw. */
  datatype Outcome = Success(result: StandardResult, elapsed: real) | Failure(message: string)

  /** The results a session shows: the lab's live results while they are
      shared, its own afterwards. */
  function SessionResults(st: State, i: nat): Entries<StandardResult>
    requires i < |st.sessions|
  {
    if st.sessions[i].shared then st.results else st.sessions[i].results
  }

  /** The timings a session shows. */
  function SessionTimings(st: State, i: nat): Entries<real>
    requires i < |st.sessions|
  {
    if st.sessions[i].shared then st.timings else st.sessions[i].timings
  }

  /** A fresh lab: nothing registered, no audio, the saved sessions loaded.
      Sessions parsed from storage share nothing with the lab. */
  function Init(saved: seq<Session>): (st: State)
    ensures st.apis == [] && st.results == [] && st.timings == []
    ensures !st.hasAudio && st.costs == 0.0
    ensures |st.sessions| == |saved|
    ensures forall i :: 0 <= i < |saved| ==> st.sessions[i] == saved[i].(shared := false)
  {
    State([], false, [], [], 0.0, seq(|saved|, i requires 0 <= i < |saved| => saved[i].(shared := false)))
  }

  /** `registerAPI(name, adapter)`: a later registration under the same
      name replaces the adapter but keeps its place. */
  function RegisterAPI(st: State, name: string, adapter: Adapter): (r: State)
    ensures Get(r.apis, name) == Some(adapter)
    ensures forall k :: k != name ==> Get(r.apis, k) == Get(st.apis, k)
    ensures HasKey(st.apis, name) ==> |r.apis| == |st.apis|
    ensures !HasKey(st.apis, name) ==> r.apis == st.apis + [(name, adapter)]
    ensures r.results == st.results && r.timings == st.timings
    ensures r.costs == st.costs && r.sessions == st.sessions && r.hasAudio == st.hasAudio
  {
    GetPutSame(st.apis, name, adapter);
    assert forall k :: k != name ==> Get(Put(st.apis, name, adapter), k) == Get(st.apis, k) by {
      forall k | k != name ensures Get(Put(st.apis, name, adapter), k) == Get(st.apis, k) {
        GetPutOther(st.apis, name, adapter, k);
      }
    }
    st.(apis := Put(st.apis, name, adapter))
  }

  /** Registration keeps adapter names distinct. */
  lemma RegisterKeepsNamesUnique(st: State, name: string, adapter: Adapter)
    requires UniqueKeys(st.apis)
    ensures UniqueKeys(RegisterAPI(st, name, adapter).apis)
  {
    PutKeys(st.apis, name, adapter);
  }

  /** The cost of one successful call: `COSTS[name] / 100` when that entry
      is truthy, nothing otherwise. */
  function CallCost(prices: Entries<real>, name: string): (c: real)
    ensures TruthyNum(Get(prices, name)) ==> c * 100.0 == Get(prices, name).value
    ensures !TruthyNum(Get(prices, name)) ==> c == 0.0
  {
    if TruthyNum(Get(prices, name)) then Get(prices, name).value / 100.0 else 0.0
  }

  /** `testSingle(name)`: without audio, for an unknown name, or when the
      adapter throws, nothing changes; on success the result and timing
      are stored under the name and the call's cost is added. */
  function TestSingle(st: State, name: string, run: string -> Outcome, prices: Entries<real>): (r: State)
    ensures r.apis == st.apis && r.hasAudio == st.hasAudio && r.sessions == st.sessions
    ensures !st.hasAudio || !HasKey(st.apis, name) || run(name).Failure? ==> r == st
    ensures st.hasAudio && HasKey(st.apis, name) && run(name).Success? ==>
              Get(r.results, name) == Some(run(name).result) &&
              Get(r.timings, name) == Some(run(name).elapsed) &&
              r.costs == st.costs + CallCost(prices, name)
    ensures forall k :: k != name ==> Get(r.results, k) == Get(st.results, k) && Get(r.timings, k) == Get(st.timings, k)
  {
    if !st.hasAudio || !HasKey(st.apis, name) then st
    else match run(name)
      case Failure(_) => st
      case Success(result, elapsed) =>
        GetPutSame(st.results, name, result);
        GetPutSame(st.timings, name, elapsed);
        assert forall k :: k != name ==>
                 Get(Put(st.results, name, result), k) == Get(st.results, k) &&
                 Get(Put(st.timings, name, elapsed), k) == Get(st.timings, k) by {
          forall k | k != name
            ensures Get(Put(st.results, name, result), k) == Get(st.results, k)
            ensures Get(Put(st.timings, name, elapsed), k) == Get(st.timings, k)
          {
            GetPutOther(st.results, name, result, k);
            GetPutOther(st.timings, name, elapsed, k);
          }
        }
        st.(results := Put(st.results, name, result),
            timings := Put(st.timings, name, elapsed),
            costs := st.costs + CallCost(prices, name))
  }

  /** The tests of `testAll`, one after another in registration order. */
  function TestEach(st: State, names: seq<string>, run: string -> Outcome, prices: Entries<real>): (r: State)
    ensures r.apis == st.apis && r.hasAudio == st.hasAudio && r.sessions == st.sessions
    decreases |names|
  {
    if |names| == 0 then st
    else TestEach(TestSingle(st, names[0], run, prices), names[1..], run, prices)
  }

  /** Whether a run stores a result for `k`. */
  predicate Stores(st: State, names: seq<string>, run: string -> Outcome, k: string) {
    st.hasAudio && k in names && HasKey(st.apis, k) && run(k).Success?
  }

  /** After the run, a name holds the result of its own test when that test
      succeeded, and its earlier result (if any) otherwise. */
  lemma {:induction false} TestEachResults(st: State, names: seq<string>, run: string -> Outcome,
                                           prices: Entries<real>, k: string)
    ensures var r := TestEach(st, names, run, prices);
            Get(r.results, k) == (if Stores(st, names, run, k) then Some(run(k).result) else Get(st.results, k)) &&
            Get(r.timings, k) == (if Stores(st, names, run, k) then Some(run(k).elapsed) else Get(st.timings, k))
    decreases |names|
  {
    if |names| > 0 {
      var next := TestSingle(st, names[0], run, prices);
      TestEachResults(next, names[1..], run, prices, k);
      assert k in names <==> k == names[0] || k in names[1..];
    }
  }

  /** With non-negative prices, running tests never lowers the session cost. */
  lemma {:induction false} TestEachCostsGrow(st: State, names: seq<string>, run: string -> Outcome, prices: Entries<real>)
    requires forall i :: 0 <= i < |prices| ==> prices[i].1 >= 0.0
    ensures TestEach(st, names, run, prices).costs >= st.costs
    decreases |names|
  {
    if |names| > 0 {
      var name := names[0];
      if TruthyNum(Get(prices, name)) {
        var i :| 0 <= i < |prices| && prices[i] == (name, Get(prices, name).value);
      }
      TestEachCostsGrow(TestSingle(st, name, run, prices), names[1..], run, prices);
    }
  }

  /** When every test throws, a run changes nothing. */
  lemma {:induction false} TestEachAllFail(st: State, names: seq<string>, run: string -> Outcome, prices: Entries<real>)
    requires forall i :: 0 <= i < |names| ==> run(names[i]).Failure?
    ensures TestEach(st, names, run, prices) == st
    decreases |names|
  {
    if |names| > 0 {
      TestEachAllFail(st, names[1..], run, prices);
    }
  }

  /** `testAll()`: without audio nothing happens and nothing is compared;
      otherwise every registered adapter is tested and the results are
      compared afterwards. */
  function TestAll(st: State, run: string -> Outcome, prices: Entries<real>): (r: (State, Option<Comparison>))
    ensures !st.hasAudio ==> r == (st, None)
    ensures st.hasAudio ==> r.1 == CompareResults(r.0.results)
    ensures r.0.apis == st.apis && r.0.sessions == st.sessions
  {
    if !st.hasAudio then (st, None)
    else
      var after := TestEach(st, Keys(st.apis), run, prices);
      (after, CompareResults(after.results))
  }

  /** After `testAll`, every registered adapter whose test succeeded holds
      that result, and every other name keeps what it had. */
  lemma TestAllResults(st: State, run: string -> Outcome, prices: Entries<real>, k: string)
    requires st.hasAudio
    ensures Get(TestAll(st, run, prices).0.results, k) ==
            (if HasKey(st.apis, k) && run(k).Success? then Some(run(k).result) else Get(st.results, k))
  {
    TestEachResults(st, Keys(st.apis), run, prices, k);
    if HasKey(st.apis, k) {
      var i :| 0 <= i < |st.apis| && st.apis[i].0 == k;
      assert Keys(st.apis)[i] == k;
    }
  }

  /** `clear()`: results and timings are emptied; adapters, audio, costs
      and sessions are kept. */
  function Clear(st: State): (r: State)
    ensures r.results == [] && r.timings == []
    ensures r.apis == st.apis && r.hasAudio == st.hasAudio && r.costs == st.costs
    ensures |r.sessions| == |st.sessions|
    ensures forall i :: 0 <= i < |st.sessions| ==>
              && !r.sessions[i].shared
              && r.sessions[i].id == st.sessions[i].id && r.sessions[i].costs == st.sessions[i].costs
              && SessionResults(r, i) == SessionResults(st, i)
              && SessionTimings(r, i) == SessionTimings(st, i)
  {
    var detached := seq(|st.sessions|, i requires 0 <= i < |st.sessions| =>
                          if st.sessions[i].shared
                          then st.sessions[i].(results := st.results, timings := st.timings, shared := false)
                          else st.sessions[i]);
    st.(results := [], timings := [], sessions := detached)
  }

  /** After `clear()` there is nothing to compare, and clearing again
      changes nothing. */
  lemma ClearLeavesNothingToCompare(st: State)
    ensures CompareResults(Clear(st).results) == None
    ensures Clear(Clear(st)) == Clear(st)
  {
  }

  /** `saveSession()` without its storage and download: a session holding
      the lab's results and timings objects and the current cost is
      appended. */
  function SaveSession(st: State, id: nat): (r: State)
    ensures |r.sessions| == |st.sessions| + 1 && r.sessions[..|st.sessions|] == st.sessions
    ensures r.sessions[|st.sessions|] == Session(id, st.results, st.timings, st.costs, true)
    ensures SessionResults(r, |st.sessions|) == st.results && SessionTimings(r, |st.sessions|) == st.timings
    ensures r == st.(sessions := r.sessions)
  {
    st.(sessions := st.sessions + [Session(id, st.results, st.timings, st.costs, true)])
  }

  /** A saved session keeps its results through `clear()`. */
  lemma SessionSurvivesClear(st: State, id: nat)
    ensures var r := Clear(SaveSession(st, id));
            SessionResults(r, |st.sessions|) == st.results && SessionTimings(r, |st.sessions|) == st.timings
  {
  }

  /** The shared objects: a test that succeeds after `saveSession()` and
      before `clear()` lands in the saved session too, and stays there once
      `clear()` detaches it. */
  lemma SavedSessionSeesLaterTest(st: State, id: nat, name: string, run: string -> Outcome, prices: Entries<real>)
    requires st.hasAudio && HasKey(st.apis, name) && run(name).Success?
    ensures var r := TestSingle(SaveSession(st, id), name, run, prices);
            Get(SessionResults(r, |st.sessions|), name) == Some(run(name).result)
            && Get(SessionResults(Clear(r), |st.sessions|), name) == Some(run(name).result)
  {
  }

  /** The probes of the registered adapters, in registration order. */
  function Probes(st: State, probe: string -> Probe): (ps: seq<Probe>)
    ensures |ps| == |st.apis|
    ensures forall i :: 0 <= i < |st.apis| ==> ps[i] == probe(st.apis[i].0)
  {
    seq(|st.apis|, i requires 0 <= i < |st.apis| => probe(st.apis[i].0))
  }

  /** `testConnections()` as written, over the registered adapters given
      each adapter's probe: an adapter counts unless its probe threw. */
  function LabConnections(st: State, probe: string -> Probe): (s: ConnectionStatus)
    ensures |st.apis| == 0 ==> s == ConnectionStatus("No APIs configured", Failed)
    ensures |st.apis| > 0 ==>
              s.text == "Connected: " + NatToString(CountWhere(Probes(st, probe), CountedAsWritten)) + "/"
                        + NatToString(|st.apis|) + " APIs"
    ensures |st.apis| > 0 ==>
              (s.kind == Connected <==> forall i :: 0 <= i < |st.apis| ==> !probe(st.apis[i].0).Threw?)
    ensures s.kind == Failed <==> forall i :: 0 <= i < |st.apis| ==> probe(st.apis[i].0).Threw?
  {
    TestConnections(Probes(st, probe))
  }

  /** `testConnections()` corrected: a probe that resolved to `false` is a
      failed connection. */
  function LabConnectionsCorrected(st: State, probe: string -> Probe): (s: ConnectionStatus)
    ensures |st.apis| == 0 ==> s == ConnectionStatus("No APIs configured", Failed)
    ensures |st.apis| > 0 ==>
              s.text == "Connected: " + NatToString(CountWhere(Probes(st, probe), CountedCorrected)) + "/"
                        + NatToString(|st.apis|) + " APIs"
    ensures |st.apis| > 0 ==>
              (s.kind == Connected <==>
                 forall i :: 0 <= i < |st.apis| ==> probe(st.apis[i].0).NoProbe? || probe(st.apis[i].0) == Resolved(true))
    ensures s.kind == Failed <==>
              forall i :: 0 <= i < |st.apis| ==> probe(st.apis[i].0).Threw? || probe(st.apis[i].0) == Resolved(false)
  {
    TestConnectionsCorrected(Probes(st, probe))
  }
}
