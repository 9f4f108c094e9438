/**
 * A JavaScript object used as a dictionary: string keys, each at most once, enumerated by
 * `Object.keys` / `Object.values` / `Object.entries` in insertion order. Assigning to an existing
 * key keeps its place; assigning to a new key appends it; `delete` removes it.
 */
module OrderedDict {
  import opened Wrappers

  datatype Entry<V> = Entry(key: string, value: V)

  type Dict<V> = seq<Entry<V>>

  /** No key occurs twice. */
  predicate Valid<V>(d: Dict<V>) {
    forall i, j :: 0 <= i < j < |d| ==> d[i].key != d[j].key
  }

  /** `Object.keys(d)`. */
  function Keys<V>(d: Dict<V>): (r: seq<string>)
    ensures |r| == |d|
    ensures forall i :: 0 <= i < |d| ==> r[i] == d[i].key
  {
    seq(|d|, i requires 0 <= i < |d| => d[i].key)
  }

  /** `Object.values(d)`. */
  function Values<V>(d: Dict<V>): (r: seq<V>)
    ensures |r| == |d|
    ensures forall i :: 0 <= i < |d| ==> r[i] == d[i].value
  {
    seq(|d|, i requires 0 <= i < |d| => d[i].value)
  }

  function IndexOf<V>(d: Dict<V>, k: string): (r: int)
    ensures -1 <= r < |d|
    ensures r >= 0 ==> d[r].key == k
    ensures r < 0 <==> k !in Keys(d)
    ensures Valid(d) ==> forall j :: 0 <= j < |d| && d[j].key == k ==> j == r
    decreases |d|
  {
    if |d| == 0 then -1
    else if d[|d| - 1].key == k then |d| - 1
    else IndexOf(d[..|d| - 1], k)
  }

  /** `d[k]`, with `undefined` as None. */
  function Get<V>(d: Dict<V>, k: string): (r: Option<V>)
    ensures r.Some? <==> k in Keys(d)
    ensures Valid(d) ==> forall i :: 0 <= i < |d| && d[i].key == k ==> r == Some(d[i].value)
  {
    var i := IndexOf(d, k);
    if i < 0 then None else Some(d[i].value)
  }

  /** `d[k] = v`. */
  function Put<V>(d: Dict<V>, k: string, v: V): (r: Dict<V>)
    requires Valid(d)
    ensures Valid(r)
    ensures Get(r, k) == Some(v)
    ensures forall k' :: k' != k ==> Get(r, k') == Get(d, k')
    ensures k in Keys(d) ==> Keys(r) == Keys(d)
    ensures k !in Keys(d) ==> Keys(r) == Keys(d) + [k]
  {
    var i := IndexOf(d, k);
    var r := if i < 0 then d + [Entry(k, v)] else d[i := Entry(k, v)];
    assert forall j :: 0 <= j < |r| ==> r[j].key == (if j < |d| then d[j].key else k);
    assert Keys(r) == if i < 0 then Keys(d) + [k] else Keys(d);
    forall k' | k' != k ensures Get(r, k') == Get(d, k') {
      var a := IndexOf(d, k');
      if a >= 0 {
        assert r[a].key == k';
      } else {
        assert k' !in Keys(r);
      }
    }
    r
  }

  /** `delete d[k]`. */
  function Remove<V>(d: Dict<V>, k: string): (r: Dict<V>)
    requires Valid(d)
    ensures Valid(r)
    ensures Get(r, k) == None
    ensures forall k' :: k' != k ==> Get(r, k') == Get(d, k')
    ensures k in Keys(d) ==> |r| == |d| - 1
    ensures k !in Keys(d) ==> r == d
  {
    var i := IndexOf(d, k);
    if i < 0 then d
    else
      var r := d[..i] + d[i + 1..];
      RemoveAtKeys(d, i);
      forall k' | k' != k ensures Get(r, k') == Get(d, k') {
        RemoveAtGet(d, i, k');
      }
      r
  }

  lemma RemoveAtKeys<V>(d: Dict<V>, i: nat)
    requires Valid(d) && i < |d|
    ensures Valid(d[..i] + d[i + 1..])
    ensures d[i].key !in Keys(d[..i] + d[i + 1..])
  {
    var r := d[..i] + d[i + 1..];
    assert forall j :: 0 <= j < |r| ==> r[j] == (if j < i then d[j] else d[j + 1]);
  }

  /** Removing the entry at `i` leaves every other key's value alone. */
  lemma RemoveAtGet<V>(d: Dict<V>, i: nat, k': string)
    requires Valid(d) && i < |d| && k' != d[i].key
    ensures Get(d[..i] + d[i + 1..], k') == Get(d, k')
  {
    var r := d[..i] + d[i + 1..];
    RemoveAtKeys(d, i);
    var a := IndexOf(d, k');
    if a >= 0 {
      var b := if a < i then a else a - 1;
      assert r[b] == d[a];
    } else {
      assert forall j :: 0 <= j < |r| ==> r[j] == (if j < i then d[j] else d[j + 1]);
      assert k' !in Keys(r);
    }
  }

  /**
   * `table[k] || k` over a table of display labels: the label when the key has a non-empty one,
   * otherwise the key itself (a missing key and an empty label are both falsy).
   */
  function Translate(table: Dict<string>, k: string): (r: string)
    ensures Get(table, k).None? ==> r == k
    ensures Get(table, k).Some? && Get(table, k).value != "" ==> r == Get(table, k).value
    ensures Get(table, k) == Some("") ==> r == k
  {
    match Get(table, k)
    case Some(shown) => if shown != "" then shown else k
    case None => k
  }

  /** A listed key with a non-empty label translates to that label. */
  lemma TranslateAt(table: Dict<string>, i: nat)
    requires Valid(table) && i < |table| && table[i].value != ""
    ensures Translate(table, table[i].key) == table[i].value
  {
    assert Get(table, table[i].key) == Some(table[i].value);
  }
}
