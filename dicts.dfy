/**
  Python dictionaries with string keys, as the dataset builder uses
  them: an insertion-ordered sequence of key/value entries.  Iteration
  (`items()`) walks the entries in order; `d[k] = v` overwrites the value
  of an existing key in its original position and appends a new key at
  the end.
*/
module Dicts {
  import opened Wrappers

  type Dict<V> = seq<(string, V)>

  /** The keys of `d`, in iteration order. */
  function Keys<V>(d: Dict<V>): (r: seq<string>)
    ensures |r| == |d|
    ensures forall i :: 0 <= i < |d| ==> r[i] == d[i].0
  {
    if d == [] then [] else [d[0].0] + Keys(d[1..])
  }

  /** The keys after appending an entry. */
  lemma KeysAppend<V>(d: Dict<V>, e: (string, V))
    ensures Keys(d + [e]) == Keys(d) + [e.0]
  {}

  /** No key occurs twice, as in every Python dict. */
  predicate DistinctKeys<V>(d: Dict<V>) {
    forall i, j :: 0 <= i < j < |d| ==> d[i].0 != d[j].0
  }

  /** `d.get(k)`: the value stored under `k`, or None. */
  function Get<V>(d: Dict<V>, k: string): (r: Option<V>)
    ensures r.None? <==> k !in Keys(d)
    ensures r.Some? ==> exists i :: 0 <= i < |d| && d[i] == (k, r.value)
  {
    if d == [] then None
    else if d[0].0 == k then Some(d[0].1)
    else
      var r := Get(d[1..], k);
      assert forall i :: 1 <= i < |d| ==> d[i] == d[1..][i - 1];
      assert Keys(d) == [d[0].0] + Keys(d[1..]);
      r
  }

  /** `d[k] = v`. */
  function Assign<V>(d: Dict<V>, k: string, v: V): (r: Dict<V>)
    ensures k in Keys(d) ==> |r| == |d|
    ensures k !in Keys(d) ==> r == d + [(k, v)]
    decreases |d|
  {
    if d == [] then [(k, v)]
    else if d[0].0 == k then [(k, v)] + d[1..]
    else
      assert Keys(d) == [d[0].0] + Keys(d[1..]);
      [d[0]] + Assign(d[1..], k, v)
  }

  /** After `d[k] = v`, looking `k` up gives `v` and every other key gives what it gave before. */
  lemma {:induction false} GetAssign<V>(d: Dict<V>, k: string, v: V, k': string)
    ensures Get(Assign(d, k, v), k') == if k' == k then Some(v) else Get(d, k')
    decreases |d|
  {
    if d != [] && d[0].0 != k {
      GetAssign(d[1..], k, v, k');
    }
  }

  /** `d[k] = v` on an existing key keeps the order of the keys; on a new key it appends `k`. */
  lemma {:induction false} KeysAssign<V>(d: Dict<V>, k: string, v: V)
    ensures Keys(Assign(d, k, v)) == if k in Keys(d) then Keys(d) else Keys(d) + [k]
    decreases |d|
  {
    if d != [] && d[0].0 != k {
      assert Keys(d) == [d[0].0] + Keys(d[1..]);
      KeysAssign(d[1..], k, v);
      assert Keys(Assign(d, k, v)) == [d[0].0] + Keys(Assign(d[1..], k, v));
    } else if d != [] {
      assert Keys(d) == [d[0].0] + Keys(d[1..]);
      assert Keys(Assign(d, k, v)) == [k] + Keys(d[1..]);
    }
  }

  /** Assignment keeps the keys distinct. */
  lemma DistinctAssign<V>(d: Dict<V>, k: string, v: V)
    requires DistinctKeys(d)
    ensures DistinctKeys(Assign(d, k, v))
  {
    KeysAssign(d, k, v);
    var r := Assign(d, k, v);
    forall i, j | 0 <= i < j < |r| ensures r[i].0 != r[j].0 {
      assert Keys(r)[i] == r[i].0 && Keys(r)[j] == r[j].0;
      if k in Keys(d) {
        assert Keys(d)[i] == d[i].0 && Keys(d)[j] == d[j].0;
      } else if j < |d| {
        assert Keys(d)[i] == d[i].0 && Keys(d)[j] == d[j].0;
      }
    }
  }

  /** Overwriting an existing key replaces its entry in place. */
  lemma {:induction false} AssignExisting<V>(d: Dict<V>, i: nat, v: V)
    requires i < |d| && DistinctKeys(d)
    ensures Assign(d, d[i].0, v) == d[i := (d[i].0, v)]
    decreases i
  {
    if i > 0 {
      assert DistinctKeys(d[1..]) by {
        forall p, q | 0 <= p < q < |d[1..]| ensures d[1..][p].0 != d[1..][q].0 {
          assert d[1..][p] == d[p + 1] && d[1..][q] == d[q + 1];
        }
      }
      assert d[1..][i - 1] == d[i];
      AssignExisting(d[1..], i - 1, v);
      assert d[i := (d[i].0, v)] == [d[0]] + d[1..][i - 1 := (d[i].0, v)];
    }
  }

  /**
    Building a dict entry by entry from the entries of `data` (whose keys
    are distinct): the next key is new, so `d[k] = v` appends it.
  */
  lemma AssignNextKey<V, W>(data: Dict<V>, i: nat, d: Dict<W>, v: W)
    requires i < |data| && DistinctKeys(data) && Keys(d) == Keys(data[..i])
    ensures Assign(d, data[i].0, v) == d + [(data[i].0, v)]
    ensures Keys(d + [(data[i].0, v)]) == Keys(data[..i + 1])
  {
    var cls := data[i].0;
    forall j | 0 <= j < i ensures Keys(d)[j] != cls {
      assert Keys(data[..i])[j] == data[j].0;
    }
    KeysAssign(d, cls, v);
    assert data[..i + 1] == data[..i] + [data[i]];
    KeysAppend(data[..i], data[i]);
  }

  /** Every entry after `d[k] = v` is the new entry or an entry of `d` at the same position. */
  lemma {:induction false} AssignEntries<V>(d: Dict<V>, k: string, v: V)
    ensures forall i :: 0 <= i < |Assign(d, k, v)| ==>
              Assign(d, k, v)[i] == (k, v) || (i < |d| && Assign(d, k, v)[i] == d[i])
    decreases |d|
  {
    if d != [] && d[0].0 != k {
      AssignEntries(d[1..], k, v);
      var r := Assign(d, k, v);
      forall i | 1 <= i < |r| ensures r[i] == (k, v) || (i < |d| && r[i] == d[i]) {
        assert r[i] == Assign(d[1..], k, v)[i - 1];
        if i - 1 < |d[1..]| {
          assert d[1..][i - 1] == d[i];
        }
      }
    }
  }

  /** Two dicts with the same keys in the same order: if one has distinct keys, so has the other. */
  lemma DistinctKeysOfKeys<V, W>(a: Dict<V>, b: Dict<W>)
    requires Keys(a) == Keys(b) && DistinctKeys(b)
    ensures DistinctKeys(a)
  {
    forall i, j | 0 <= i < j < |a| ensures a[i].0 != a[j].0 {
      assert Keys(a)[i] == b[i].0 && Keys(a)[j] == b[j].0;
    }
  }

  /** `d[k] = v` for each entry `(k, v)` of `entries`, in order. */
  function AssignAll<V>(d: Dict<V>, entries: Dict<V>): Dict<V>
    decreases |entries|
  {
    if entries == [] then d else AssignAll(Assign(d, entries[0].0, entries[0].1), entries[1..])
  }

  /** One entry of an assignment loop. */
  lemma AssignAllStep<V>(d: Dict<V>, entries: Dict<V>, i: nat)
    requires i < |entries|
    ensures AssignAll(d, entries[i..]) == AssignAll(Assign(d, entries[i].0, entries[i].1), entries[i + 1..])
  {
    assert entries[i..][0] == entries[i] && entries[i..][1..] == entries[i + 1..];
  }

  /** A key that no entry assigns keeps what it had. */
  lemma {:induction false} AssignAllUntouched<V>(d: Dict<V>, entries: Dict<V>, k: string)
    requires forall j :: 0 <= j < |entries| ==> entries[j].0 != k
    ensures Get(AssignAll(d, entries), k) == Get(d, k)
    decreases |entries|
  {
    if entries != [] {
      GetAssign(d, entries[0].0, entries[0].1, k);
      assert forall j :: 0 <= j < |entries[1..]| ==> entries[1..][j] == entries[j + 1];
      AssignAllUntouched(Assign(d, entries[0].0, entries[0].1), entries[1..], k);
    }
  }

  /** The last assignment to a key wins. */
  lemma {:induction false} AssignAllLastWins<V>(d: Dict<V>, entries: Dict<V>, i: nat)
    requires i < |entries|
    requires forall j :: i < j < |entries| ==> entries[j].0 != entries[i].0
    ensures Get(AssignAll(d, entries), entries[i].0) == Some(entries[i].1)
    decreases |entries|
  {
    var next := Assign(d, entries[0].0, entries[0].1);
    assert forall j :: 0 <= j < |entries[1..]| ==> entries[1..][j] == entries[j + 1];
    if i == 0 {
      GetAssign(d, entries[0].0, entries[0].1, entries[0].0);
      AssignAllUntouched(next, entries[1..], entries[0].0);
    } else {
      AssignAllLastWins(next, entries[1..], i - 1);
    }
  }

  /**
    The keys after the assignments are distinct when they were before,
    and are the keys there were plus the keys assigned.
  */
  lemma {:induction false} AssignAllKeys<V>(d: Dict<V>, entries: Dict<V>, k: string)
    requires DistinctKeys(d)
    ensures DistinctKeys(AssignAll(d, entries))
    ensures k in Keys(AssignAll(d, entries)) <==> k in Keys(d) || k in Keys(entries)
    ensures |AssignAll(d, entries)| >= |d|
    ensures |entries| > 0 ==> |AssignAll(d, entries)| > 0
    decreases |entries|
  {
    if entries != [] {
      var next := Assign(d, entries[0].0, entries[0].1);
      DistinctAssign(d, entries[0].0, entries[0].1);
      KeysAssign(d, entries[0].0, entries[0].1);
      AssignAllKeys(next, entries[1..], k);
      assert Keys(entries) == [entries[0].0] + Keys(entries[1..]);
    }
  }
}
