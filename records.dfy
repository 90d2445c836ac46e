/** A JavaScript `Record<string, number>` as the step views use it for
    `BusinessData.spending`: an association list in insertion order, which is the
    order `Object.entries` and `Object.values` report. Keys are distinct, as the
    keys of an object are. */
module Records {
  import opened Wrappers

  predicate KeysDistinct(s: seq<(string, real)>) {
    forall i, j :: 0 <= i < j < |s| ==> s[i].0 != s[j].0
  }

  /** `Record<string, number>`: entries in insertion order, no key twice. */
  type Table = s: seq<(string, real)> | KeysDistinct(s) witness []

  /** The position of key `k` in `t`, if `k` is a key of `t`. */
  function IndexOf(t: seq<(string, real)>, k: string): (r: Option<nat>)
    ensures r.Some? ==> r.value < |t| && t[r.value].0 == k
    ensures r.Some? ==> forall j :: 0 <= j < r.value ==> t[j].0 != k
    ensures r.None? <==> forall j :: 0 <= j < |t| ==> t[j].0 != k
  {
    if t == [] then None
    else if t[0].0 == k then Some(0)
    else match IndexOf(t[1..], k)
      case Some(i) => Some(i + 1)
      case None => None
  }

  /** `t[k]`, `undefined` (None) when `k` is not a key. */
  function Get(t: Table, k: string): (r: Option<real>)
    ensures r.Some? <==> exists i :: 0 <= i < |t| && t[i].0 == k
    ensures forall i :: 0 <= i < |t| && t[i].0 == k ==> r == Some(t[i].1)
  {
    match IndexOf(t, k)
    case Some(i) => Some(t[i].1)
    case None => None
  }

  /** `t[k] || 0`: the value stored under `k`, absent read as zero. */
  function GetOrZero(t: Table, k: string): (r: real)
    ensures (forall i :: 0 <= i < |t| ==> t[i].0 != k) ==> r == 0.0
    ensures forall i :: 0 <= i < |t| && t[i].0 == k ==> r == t[i].1
  {
    Get(t, k).GetOr(0.0)
  }

  /** `{ ...t, [k]: v }`: an existing key keeps its place and takes the new value;
      a new key goes at the end. */
  function Set(t: Table, k: string, v: real): (r: Table)
    ensures Get(r, k) == Some(v)
    ensures forall k' :: k' != k ==> Get(r, k') == Get(t, k')
    ensures IndexOf(t, k).Some? ==>
              |r| == |t| && r[IndexOf(t, k).value] == (k, v) &&
              forall j :: 0 <= j < |t| && j != IndexOf(t, k).value ==> r[j] == t[j]
    ensures IndexOf(t, k).None? ==> r == t + [(k, v)]
  {
    match IndexOf(t, k)
    case Some(i) =>
      var r := t[i := (k, v)];
      assert forall j :: 0 <= j < |r| ==> r[j].0 == t[j].0;
      r
    case None =>
      var r := t + [(k, v)];
      assert r[|t|] == (k, v);
      assert forall j :: 0 <= j < |t| ==> r[j] == t[j];
      r
  }
}
