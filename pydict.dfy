/** A Python dict built from a literal `{k1: v1, k2: v2, ...}`, as an ordered
    sequence of entries. Python evaluates the literal left to right and stores
    each pair as `d[k] = v`: a key seen again keeps the position of its first
    occurrence and takes the later value. `json.dumps` emits the entries in
    that order. */
module PyDict {
  import opened Common

  datatype Entry<V> = Entry(key: string, value: V)

  function Keys<V>(d: seq<Entry<V>>): (ks: seq<string>)
    ensures |ks| == |d|
    ensures forall i :: 0 <= i < |d| ==> ks[i] == d[i].key
  {
    if d == [] then [] else Keys(d[..|d| - 1]) + [d[|d| - 1].key]
  }

  predicate UniqueKeys<V>(d: seq<Entry<V>>) {
    forall i, j :: 0 <= i < j < |d| ==> d[i].key != d[j].key
  }

  /** `d[k]`, or `None` when `k` is not a key of `d`. */
  function Get<V>(d: seq<Entry<V>>, k: string): (r: Option<V>)
    ensures r.None? <==> k !in Keys(d)
    ensures r.Some? ==> exists i :: 0 <= i < |d| && d[i] == Entry(k, r.value)
  {
    if d == [] then None
    else if d[|d| - 1].key == k && Get(d[..|d| - 1], k).None? then Some(d[|d| - 1].value)
    else Get(d[..|d| - 1], k)
  }

  /** `d[k] = v`: replaces the value in place when `k` is present, else appends. */
  function SetItem<V>(d: seq<Entry<V>>, k: string, v: V): (r: seq<Entry<V>>)
    requires UniqueKeys(d)
    ensures UniqueKeys(r)
    ensures Keys(r) == if k in Keys(d) then Keys(d) else Keys(d) + [k]
    ensures Get(r, k) == Some(v)
    ensures forall k' :: k' != k ==> Get(r, k') == Get(d, k')
  {
    if k in Keys(d) then
      var i :| 0 <= i < |d| && d[i].key == k;
      var r := d[i := Entry(k, v)];
      assert Keys(r) == Keys(d);
      GetUnique(r, i);
      forall k' | k' != k ensures Get(r, k') == Get(d, k') {
        GetReplaced(d, i, v, k');
      }
      r
    else
      var r := d + [Entry(k, v)];
      assert Keys(r) == Keys(d) + [k];
      assert r[..|r| - 1] == d;
      r
  }

  /** The dict the literal `lit` evaluates to. */
  function FromLiteral<V>(lit: seq<Entry<V>>): (d: seq<Entry<V>>)
    ensures UniqueKeys(d)
    decreases |lit|
  {
    if lit == [] then []
    else SetItem(FromLiteral(lit[..|lit| - 1]), lit[|lit| - 1].key, lit[|lit| - 1].value)
  }

  /** The value the LAST pair with key `k` in `lit` gives. */
  function LastValue<V>(lit: seq<Entry<V>>, k: string): Option<V>
    decreases |lit|
  {
    if lit == [] then None
    else if lit[|lit| - 1].key == k then Some(lit[|lit| - 1].value)
    else LastValue(lit[..|lit| - 1], k)
  }

  /** The keys of `ks`, each kept at its first occurrence only. */
  function FirstOccurrences(ks: seq<string>): seq<string>
    decreases |ks|
  {
    if ks == [] then []
    else
      var p := FirstOccurrences(ks[..|ks| - 1]);
      if ks[|ks| - 1] in p then p else p + [ks[|ks| - 1]]
  }

  lemma GetUnique<V>(d: seq<Entry<V>>, i: int)
    requires UniqueKeys(d) && 0 <= i < |d|
    ensures Get(d, d[i].key) == Some(d[i].value)
  {
    var r := Get(d, d[i].key);
    var j :| 0 <= j < |d| && d[j] == Entry(d[i].key, r.value);
  }

  lemma {:induction false} GetReplaced<V>(d: seq<Entry<V>>, i: int, v: V, k': string)
    requires 0 <= i < |d| && d[i].key != k'
    ensures Get(d[i := Entry(d[i].key, v)], k') == Get(d, k')
    decreases |d|
  {
    var r := d[i := Entry(d[i].key, v)];
    var n := |d| - 1;
    var last := d[n];
    if i < n {
      var front := d[..n][i := Entry(d[i].key, v)];
      assert r == front + [last];
      assert d == d[..n] + [last];
      GetReplaced(d[..n], i, v, k');
      GetAppend(front, last, k');
      GetAppend(d[..n], last, k');
    } else {
      assert r == d[..n] + [Entry(last.key, v)];
      assert d == d[..n] + [last];
      GetAppend(d[..n], Entry(last.key, v), k');
      GetAppend(d[..n], last, k');
    }
  }

  /** Looking `k` up after appending a pair: the pair only answers for its own
      key, and only when the front lacks it. */
  lemma GetAppend<V>(front: seq<Entry<V>>, e: Entry<V>, k: string)
    ensures Get(front + [e], k) ==
              if e.key == k && Get(front, k).None? then Some(e.value) else Get(front, k)
  {
    assert (front + [e])[..|front|] == front;
  }

  /** Looking a key up in the built dict gives the value of its last pair in
      the literal: the later duplicate wins. */
  lemma {:induction false} GetFromLiteral<V>(lit: seq<Entry<V>>, k: string)
    ensures Get(FromLiteral(lit), k) == LastValue(lit, k)
    decreases |lit|
  {
    if lit != [] {
      GetFromLiteral(lit[..|lit| - 1], k);
    }
  }

  /** The built dict lists each key of the literal once, in the order of its
      first occurrence. */
  lemma {:induction false} KeysFromLiteral<V>(lit: seq<Entry<V>>)
    ensures Keys(FromLiteral(lit)) == FirstOccurrences(Keys(lit))
    decreases |lit|
  {
    if lit != [] {
      KeysFromLiteral(lit[..|lit| - 1]);
      assert Keys(lit)[..|lit| - 1] == Keys(lit[..|lit| - 1]);
    }
  }

  /** A pair whose key does not occur in `tail` is not overridden by it. */
  /** The pair at index `j` gives the last value of its key when no later
      pair repeats that key. */
  lemma {:induction false} LastValueAt<V>(lit: seq<Entry<V>>, j: int)
    requires 0 <= j < |lit|
    requires forall i :: j < i < |lit| ==> lit[i].key != lit[j].key
    ensures LastValue(lit, lit[j].key) == Some(lit[j].value)
    decreases |lit|
  {
    if j < |lit| - 1 {
      LastValueAt(lit[..|lit| - 1], j);
    }
  }

  lemma {:induction false} LastValueAppend<V>(head: seq<Entry<V>>, tail: seq<Entry<V>>, k: string)
    requires forall i :: 0 <= i < |tail| ==> tail[i].key != k
    ensures LastValue(head + tail, k) == LastValue(head, k)
    decreases |tail|
  {
    if tail != [] {
      var w := head + tail;
      assert w[..|w| - 1] == head + tail[..|tail| - 1];
      LastValueAppend(head, tail[..|tail| - 1], k);
    } else {
      assert head + tail == head;
    }
  }
}
