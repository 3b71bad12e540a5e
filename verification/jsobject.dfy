/** A plain JavaScript object used as a dictionary (`this.apis`,
    `this.results`, `this.timings`): string keys, each at most once, enumerated
    by `Object.entries` in insertion order. Assigning an existing key replaces
    its value in place; assigning a new key appends it. */
module JsObject {
  import opened Wrappers

  type Entries<V> = seq<(string, V)>

  function Keys<V>(o: Entries<V>): (ks: seq<string>)
    ensures |ks| == |o|
    ensures forall i :: 0 <= i < |o| ==> ks[i] == o[i].0
  {
    seq(|o|, i requires 0 <= i < |o| => o[i].0)
  }

  predicate HasKey<V>(o: Entries<V>, k: string) {
    exists i :: 0 <= i < |o| && o[i].0 == k
  }

  /** Every key occurs once. */
  predicate UniqueKeys<V>(o: Entries<V>) {
    forall i, j :: 0 <= i < j < |o| ==> o[i].0 != o[j].0
  }

  /** Position of the first entry with key `k`. */
  function IndexOf<V>(o: Entries<V>, k: string): (r: Option<nat>)
    ensures r.None? <==> !HasKey(o, k)
    ensures r.Some? ==> r.value < |o| && o[r.value].0 == k
    ensures r.Some? ==> forall j :: 0 <= j < r.value ==> o[j].0 != k
  {
    if |o| == 0 then None
    else if o[0].0 == k then Some(0)
    else
      match IndexOf(o[1..], k)
      case None => None
      case Some(i) => Some(i + 1)
  }

  /** The first position holding `k` is the one `IndexOf` finds. */
  lemma IndexOfFirst<V>(o: Entries<V>, k: string, i: nat)
    requires i < |o| && o[i].0 == k
    requires forall j :: 0 <= j < i ==> o[j].0 != k
    ensures IndexOf(o, k) == Some(i)
  {
    assert HasKey(o, k);
    var r := IndexOf(o, k);
    assert !(r.value < i);
  }

  /** `o[k]`: the value stored under `k`, or `undefined`. */
  function Get<V>(o: Entries<V>, k: string): (r: Option<V>)
    ensures r.Some? <==> HasKey(o, k)
    ensures r.Some? ==> exists i :: 0 <= i < |o| && o[i] == (k, r.value)
  {
    match IndexOf(o, k)
    case None => None
    case Some(i) => Some(o[i].1)
  }

  /** `o[k] = v`. */
  function Put<V>(o: Entries<V>, k: string, v: V): (r: Entries<V>)
    ensures HasKey(o, k) ==> |r| == |o|
    ensures !HasKey(o, k) ==> r == o + [(k, v)]
  {
    match IndexOf(o, k)
    case None => o + [(k, v)]
    case Some(i) => o[i := (k, v)]
  }

  /** After `o[k] = v`, reading `k` gives `v`. */
  lemma GetPutSame<V>(o: Entries<V>, k: string, v: V)
    ensures Get(Put(o, k, v), k) == Some(v)
  {
    var r := Put(o, k, v);
    match IndexOf(o, k)
    case None =>
      IndexOfFirst(r, k, |o|);
    case Some(i) =>
      IndexOfFirst(r, k, i);
  }

  /** After `o[k] = v`, every other key reads as before. */
  lemma GetPutOther<V>(o: Entries<V>, k: string, v: V, k': string)
    requires k' != k
    ensures Get(Put(o, k, v), k') == Get(o, k')
  {
    var r := Put(o, k, v);
    match IndexOf(o, k') {
      case None =>
        assert !HasKey(r, k');
      case Some(i) =>
        IndexOfFirst(r, k', i);
    }
  }

  /** Assignment keeps every key unique, and enumerates the keys as before
      (with `k` appended when it is new). */
  lemma PutKeys<V>(o: Entries<V>, k: string, v: V)
    requires UniqueKeys(o)
    ensures UniqueKeys(Put(o, k, v))
    ensures HasKey(o, k) ==> Keys(Put(o, k, v)) == Keys(o)
    ensures !HasKey(o, k) ==> Keys(Put(o, k, v)) == Keys(o) + [k]
  {
  }
}
