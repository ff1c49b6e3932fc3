/**
 * Python's `dict` with string keys, as an ordered association list.
 *
 * Python dictionaries remember insertion order: assigning to a key that is
 * present keeps its position, assigning to a new key appends it, `pop`
 * removes it and `update` assigns every entry of the argument in its order.
 * A dictionary built by Python never holds a key twice (`DistinctKeys`).
 */
module PyDict {
  import opened Wrappers

  type ODict<V> = seq<(string, V)>

  function Keys<V>(d: ODict<V>): (ks: seq<string>)
    ensures |ks| == |d|
  {
    if d == [] then [] else [d[0].0] + Keys(d[1..])
  }

  /** `k in d`. */
  predicate HasKey<V>(d: ODict<V>, k: string) {
    d != [] && (d[0].0 == k || HasKey(d[1..], k))
  }

  /** Every key occurs once, as in any dictionary Python builds. */
  predicate DistinctKeys<V>(d: ODict<V>) {
    d != [] ==> !HasKey(d[1..], d[0].0) && DistinctKeys(d[1..])
  }

  /** `d.get(k)`: the value stored under the first occurrence of `k`. */
  function Get<V>(d: ODict<V>, k: string): (r: Option<V>)
    ensures r.Some? <==> HasKey(d, k)
  {
    if d == [] then None
    else if d[0].0 == k then Some(d[0].1)
    else Get(d[1..], k)
  }

  /** `d.get(k, default)`. */
  function GetOr<V>(d: ODict<V>, k: string, default: V): V {
    Get(d, k).GetOr(default)
  }

  /** The entries of `d` with the value under `k` replaced by `v`. */
  function Replace<V>(d: ODict<V>, k: string, v: V): (r: ODict<V>)
    ensures |r| == |d|
  {
    if d == [] then []
    else (if d[0].0 == k then [(k, v)] else [d[0]]) + Replace(d[1..], k, v)
  }

  /** `d[k] = v`: overwrite in place when present, append otherwise. */
  function Set<V>(d: ODict<V>, k: string, v: V): ODict<V> {
    if HasKey(d, k) then Replace(d, k, v) else d + [(k, v)]
  }

  /** `d.pop(k, None)` for its effect on `d`: every entry under `k` goes. */
  function Remove<V>(d: ODict<V>, k: string): (r: ODict<V>)
    ensures |r| <= |d|
  {
    if d == [] then []
    else (if d[0].0 == k then [] else [d[0]]) + Remove(d[1..], k)
  }

  /** `d.update(e)`: assign every entry of `e`, in the order of `e`. */
  function Update<V>(d: ODict<V>, e: ODict<V>): ODict<V>
    decreases |e|
  {
    if e == [] then d else Update(Set(d, e[0].0, e[0].1), e[1..])
  }

  // ---------------------------------------------------------------------
  // Lemmas about the dictionary operations
  // ---------------------------------------------------------------------

  lemma {:induction false} HasKeyIsKeyMember<V>(d: ODict<V>, k: string)
    ensures HasKey(d, k) <==> k in Keys(d)
  {
    if d != [] {
      HasKeyIsKeyMember(d[1..], k);
    }
  }

  lemma {:induction false} HasKeyAppend<V>(a: ODict<V>, b: ODict<V>, k: string)
    ensures HasKey(a + b, k) <==> HasKey(a, k) || HasKey(b, k)
  {
    if a != [] {
      assert (a + b)[0] == a[0] && (a + b)[1..] == a[1..] + b;
      HasKeyAppend(a[1..], b, k);
    } else {
      assert a + b == b;
    }
  }

  lemma {:induction false} KeysAppend<V>(a: ODict<V>, b: ODict<V>)
    ensures Keys(a + b) == Keys(a) + Keys(b)
  {
    if a != [] {
      assert (a + b)[0] == a[0] && (a + b)[1..] == a[1..] + b;
      KeysAppend(a[1..], b);
    } else {
      assert a + b == b;
    }
  }

  lemma {:induction false} GetAppend<V>(a: ODict<V>, b: ODict<V>, k: string)
    ensures Get(a + b, k) == if HasKey(a, k) then Get(a, k) else Get(b, k)
  {
    if a != [] {
      assert (a + b)[0] == a[0] && (a + b)[1..] == a[1..] + b;
      GetAppend(a[1..], b, k);
    } else {
      assert a + b == b;
    }
  }

  lemma {:induction false} ReplaceFacts<V>(d: ODict<V>, k: string, v: V, q: string)
    ensures Keys(Replace(d, k, v)) == Keys(d)
    ensures HasKey(Replace(d, k, v), q) <==> HasKey(d, q)
    ensures Get(Replace(d, k, v), q) == if q == k && HasKey(d, k) then Some(v) else Get(d, q)
  {
    if d != [] {
      ReplaceFacts(d[1..], k, v, q);
      var r := Replace(d, k, v);
      assert r[0].0 == d[0].0 && r[1..] == Replace(d[1..], k, v);
    }
  }

  lemma GetSet<V>(d: ODict<V>, k: string, v: V, q: string)
    ensures Get(Set(d, k, v), q) == if q == k then Some(v) else Get(d, q)
  {
    if HasKey(d, k) {
      ReplaceFacts(d, k, v, q);
    } else {
      GetAppend(d, [(k, v)], q);
    }
  }

  lemma HasKeySet<V>(d: ODict<V>, k: string, v: V, q: string)
    ensures HasKey(Set(d, k, v), q) <==> HasKey(d, q) || q == k
  {
    GetSet(d, k, v, q);
  }

  lemma KeysSet<V>(d: ODict<V>, k: string, v: V)
    ensures Keys(Set(d, k, v)) == if HasKey(d, k) then Keys(d) else Keys(d) + [k]
  {
    if HasKey(d, k) {
      ReplaceFacts(d, k, v, k);
    } else {
      KeysAppend(d, [(k, v)]);
    }
  }

  lemma {:induction false} DistinctReplace<V>(d: ODict<V>, k: string, v: V)
    requires DistinctKeys(d)
    ensures DistinctKeys(Replace(d, k, v))
  {
    if d != [] {
      DistinctReplace(d[1..], k, v);
      ReplaceFacts(d[1..], k, v, d[0].0);
      var r := Replace(d, k, v);
      assert r[0].0 == d[0].0 && r[1..] == Replace(d[1..], k, v);
    }
  }

  lemma {:induction false} DistinctAppendNew<V>(d: ODict<V>, k: string, v: V)
    requires DistinctKeys(d) && !HasKey(d, k)
    ensures DistinctKeys(d + [(k, v)])
  {
    if d != [] {
      assert (d + [(k, v)])[1..] == d[1..] + [(k, v)];
      DistinctAppendNew(d[1..], k, v);
      HasKeyAppend(d[1..], [(k, v)], d[0].0);
    }
  }

  lemma DistinctSet<V>(d: ODict<V>, k: string, v: V)
    requires DistinctKeys(d)
    ensures DistinctKeys(Set(d, k, v))
  {
    if HasKey(d, k) {
      DistinctReplace(d, k, v);
    } else {
      DistinctAppendNew(d, k, v);
    }
  }

  lemma {:induction false} RemoveFacts<V>(d: ODict<V>, k: string, q: string)
    ensures Get(Remove(d, k), q) == if q == k then None else Get(d, q)
    ensures HasKey(Remove(d, k), q) <==> HasKey(d, q) && q != k
  {
    if d != [] {
      RemoveFacts(d[1..], k, q);
      var head: ODict<V> := if d[0].0 == k then [] else [d[0]];
      GetAppend(head, Remove(d[1..], k), q);
      HasKeyAppend(head, Remove(d[1..], k), q);
    }
  }

  lemma {:induction false} DistinctRemove<V>(d: ODict<V>, k: string)
    requires DistinctKeys(d)
    ensures DistinctKeys(Remove(d, k))
  {
    if d != [] {
      DistinctRemove(d[1..], k);
      RemoveFacts(d[1..], k, d[0].0);
      if d[0].0 != k {
        assert Remove(d, k) == [d[0]] + Remove(d[1..], k);
        assert Remove(d, k)[1..] == Remove(d[1..], k);
      } else {
        assert Remove(d, k) == Remove(d[1..], k);
      }
    }
  }

  /** dict.update leaves keys outside `e` alone and makes `e`'s value
      the visible one for every key of `e`. */
  lemma {:induction false} GetUpdate<V>(d: ODict<V>, e: ODict<V>, q: string)
    requires DistinctKeys(e)
    ensures Get(Update(d, e), q) == if HasKey(e, q) then Get(e, q) else Get(d, q)
    decreases |e|
  {
    if e != [] {
      GetUpdate(Set(d, e[0].0, e[0].1), e[1..], q);
      GetSet(d, e[0].0, e[0].1, q);
    }
  }

  lemma {:induction false} KeysUpdate<V>(d: ODict<V>, e: ODict<V>)
    ensures |Keys(d)| <= |Keys(Update(d, e))|
    ensures Keys(Update(d, e))[..|Keys(d)|] == Keys(d)
    ensures forall q :: HasKey(Update(d, e), q) <==> HasKey(d, q) || HasKey(e, q)
    decreases |e|
  {
    if e != [] {
      var d' := Set(d, e[0].0, e[0].1);
      KeysSet(d, e[0].0, e[0].1);
      KeysUpdate(d', e[1..]);
      assert Keys(d')[..|Keys(d)|] == Keys(d);
      forall q ensures HasKey(d', q) <==> HasKey(d, q) || q == e[0].0 {
        HasKeySet(d, e[0].0, e[0].1, q);
      }
    }
  }

  lemma {:induction false} DistinctUpdate<V>(d: ODict<V>, e: ODict<V>)
    requires DistinctKeys(d)
    ensures DistinctKeys(Update(d, e))
    decreases |e|
  {
    if e != [] {
      DistinctSet(d, e[0].0, e[0].1);
      DistinctUpdate(Set(d, e[0].0, e[0].1), e[1..]);
    }
  }

  lemma {:induction false} UpdateSnoc<V>(d: ODict<V>, e: ODict<V>, k: string, v: V)
    ensures Update(d, e + [(k, v)]) == Set(Update(d, e), k, v)
    decreases |e|
  {
    if e == [] {
      assert e + [(k, v)] == [(k, v)];
    } else {
      assert (e + [(k, v)])[0] == e[0] && (e + [(k, v)])[1..] == e[1..] + [(k, v)];
      UpdateSnoc(Set(d, e[0].0, e[0].1), e[1..], k, v);
    }
  }

  /** Appending an entry keeps the keys distinct exactly when its key is new. */
  lemma {:induction false} DistinctSnoc<V>(a: ODict<V>, k: string, v: V)
    ensures DistinctKeys(a + [(k, v)]) <==> DistinctKeys(a) && !HasKey(a, k)
  {
    if a != [] {
      assert (a + [(k, v)])[0] == a[0] && (a + [(k, v)])[1..] == a[1..] + [(k, v)];
      DistinctSnoc(a[1..], k, v);
      HasKeyAppend(a[1..], [(k, v)], a[0].0);
    }
  }

  /** Popping a key that is absent leaves the dictionary as it was. */
  lemma {:induction false} RemoveAbsent<V>(d: ODict<V>, k: string)
    requires !HasKey(d, k)
    ensures Remove(d, k) == d
  {
    if d != [] {
      RemoveAbsent(d[1..], k);
    }
  }

  /** Assigning a key the value it already holds changes nothing. */
  lemma {:induction false} SetSame<V>(d: ODict<V>, k: string, v: V)
    requires DistinctKeys(d) && Get(d, k) == Some(v)
    ensures Set(d, k, v) == d
  {
    ReplaceSame(d, k, v);
  }

  lemma {:induction false} ReplaceSame<V>(d: ODict<V>, k: string, v: V)
    requires DistinctKeys(d) && Get(d, k) == Some(v)
    ensures Replace(d, k, v) == d
  {
    if d[0].0 == k {
      ReplaceAbsent(d[1..], k, v);
      assert [(k, v)] + d[1..] == d;
    } else {
      ReplaceSame(d[1..], k, v);
    }
  }

  lemma {:induction false} ReplaceAbsent<V>(d: ODict<V>, k: string, v: V)
    requires !HasKey(d, k)
    ensures Replace(d, k, v) == d
  {
    if d != [] {
      ReplaceAbsent(d[1..], k, v);
    }
  }

  /** A dict's keys have no repeats. */
  lemma {:induction false} KeysDistinct<V>(d: ODict<V>)
    requires DistinctKeys(d)
    ensures forall i, j :: 0 <= i < j < |Keys(d)| ==> Keys(d)[i] != Keys(d)[j]
  {
    if d != [] {
      KeysDistinct(d[1..]);
      HasKeyIsKeyMember(d[1..], d[0].0);
      var ks := Keys(d);
      assert ks == [d[0].0] + Keys(d[1..]);
      forall i, j | 0 <= i < j < |ks| ensures ks[i] != ks[j] {
        if i == 0 {
          assert ks[j] == Keys(d[1..])[j - 1];
        } else {
          assert ks[i] == Keys(d[1..])[i - 1] && ks[j] == Keys(d[1..])[j - 1];
        }
      }
    }
  }
}
