/**
 * Python dicts that remember insertion order, and the
 * `d.setdefault(k, []).append(v)` grouping loop the source uses in four places.
 */
module Grouping {
  import opened Wrappers

  /** No element occurs twice. */
  predicate Distinct<T(==)>(s: seq<T>)
  {
    s == [] || (s[0] !in s[1..] && Distinct(s[1..]))
  }

  /** Appending an element not yet present keeps a sequence distinct. */
  lemma {:induction false} DistinctSnoc<T>(s: seq<T>, x: T)
    requires Distinct(s) && x !in s
    ensures Distinct(s + [x])
  {
    if s != [] {
      assert (s + [x])[1..] == s[1..] + [x];
      DistinctSnoc(s[1..], x);
    }
  }

  /** Dropping the last element of a distinct sequence leaves it distinct and without that element. */
  lemma {:induction false} DistinctInit<T>(s: seq<T>, x: T)
    ensures Distinct(s + [x]) ==> Distinct(s) && x !in s
  {
    if s != [] {
      assert (s + [x])[1..] == s[1..] + [x];
      DistinctInit(s[1..], x);
    }
  }

  /** A Python dict: its entries in insertion order. */
  datatype ODict<K, V> = ODict(entries: seq<(K, V)>)

  /** `list(d.keys())`. */
  function Keys<K, V>(d: ODict<K, V>): (ks: seq<K>)
    ensures |ks| == |d.entries| && forall i :: 0 <= i < |ks| ==> ks[i] == d.entries[i].0
  {
    KeysOf(d.entries)
  }

  /** Every key occurs once, as in a real dict. */
  predicate Wf<K(==), V>(d: ODict<K, V>)
  {
    Distinct(Keys(d))
  }

  function Empty<K, V>(): (d: ODict<K, V>)
    ensures Wf(d) && Keys(d) == []
  {
    ODict([])
  }

  /** `d.get(k)`: the value stored under `k`, if any. */
  function Find<K(==), V>(d: ODict<K, V>, k: K): (r: Option<V>)
    ensures r.Some? <==> k in Keys(d)
    decreases |d.entries|
  {
    if d.entries == [] then None
    else
      var front := ODict(d.entries[..|d.entries| - 1]);
      var last := d.entries[|d.entries| - 1];
      assert Keys(d) == Keys(front) + [last.0];
      if last.0 == k then Some(last.1) else Find(front, k)
  }

  /** In a dict with distinct keys, looking up an entry's key finds that entry's value. */
  lemma {:induction false} FindEntry<K(!new), V>(d: ODict<K, V>, i: nat)
    requires Wf(d) && i < |d.entries|
    ensures Find(d, d.entries[i].0) == Some(d.entries[i].1)
    decreases |d.entries|
  {
    var n := |d.entries| - 1;
    var front := ODict(d.entries[..n]);
    assert Keys(d) == Keys(front) + [d.entries[n].0];
    if i < n {
      assert front.entries[i] == d.entries[i];
      assert Keys(d)[i] == d.entries[i].0 && Keys(d)[n] == d.entries[n].0;
      DistinctInit(Keys(front), d.entries[n].0);
      FindEntry(front, i);
    }
  }

  /** The entries with the value under `k` replaced by `v`, in place. */
  function Replace<K(==,!new), V>(d: ODict<K, V>, k: K, v: V): (r: ODict<K, V>)
    ensures Keys(r) == Keys(d)
    ensures forall x :: Find(r, x) == if x == k && k in Keys(d) then Some(v) else Find(d, x)
    decreases |d.entries|
  {
    if d.entries == [] then d
    else
      var front := ODict(d.entries[..|d.entries| - 1]);
      var last := d.entries[|d.entries| - 1];
      var r := ODict(Replace(front, k, v).entries + [if last.0 == k then (k, v) else last]);
      assert Keys(d) == Keys(front) + [last.0];
      assert r.entries[..|r.entries| - 1] == Replace(front, k, v).entries;
      r
  }

  /** `d[k] = v`: a new key goes last, an existing key keeps its place. */
  function Assign<K(==,!new), V>(d: ODict<K, V>, k: K, v: V): (r: ODict<K, V>)
    ensures Keys(r) == if k in Keys(d) then Keys(d) else Keys(d) + [k]
    ensures forall x :: Find(r, x) == if x == k then Some(v) else Find(d, x)
    ensures Wf(d) ==> Wf(r)
  {
    if k in Keys(d) then Replace(d, k, v)
    else
      var r := ODict(d.entries + [(k, v)]);
      assert r.entries[..|d.entries|] == d.entries;
      if Wf(d) then DistinctSnoc(Keys(d), k); r else r
  }

  /** `d.pop(k, None)`: the entry under `k` goes, the others keep their order. */
  function Pop<K(==,!new), V>(d: ODict<K, V>, k: K): (r: ODict<K, V>)
    ensures forall x :: Find(r, x) == if x == k then None else Find(d, x)
    ensures forall x :: x in Keys(r) <==> x in Keys(d) && x != k
    ensures Wf(d) ==> Wf(r)
    decreases |d.entries|
  {
    if d.entries == [] then d
    else
      var front := ODict(d.entries[..|d.entries| - 1]);
      var last := d.entries[|d.entries| - 1];
      assert Keys(d) == Keys(front) + [last.0];
      DistinctInit(Keys(front), last.0);
      var kept := Pop(front, k);
      if last.0 == k then kept
      else
        var r := ODict(kept.entries + [last]);
        assert r.entries[..|r.entries| - 1] == kept.entries;
        assert Keys(r) == Keys(kept) + [last.0];
        if Wf(d) then DistinctSnoc(Keys(kept), last.0); r else r
  }

  /** `for fid in ids: d.pop(fid, None)`. */
  function PopAll<K(==,!new), V>(d: ODict<K, V>, ids: seq<K>): (r: ODict<K, V>)
    ensures forall x :: Find(r, x) == if x in ids then None else Find(d, x)
    ensures Wf(d) ==> Wf(r)
  {
    if ids == [] then d
    else Pop(PopAll(d, ids[..|ids| - 1]), ids[|ids| - 1])
  }

  /** `d[k] = v` for each pair in order: a later pair overwrites an earlier one with the same key. */
  function FromPairs<K(==,!new), V>(pairs: seq<(K, V)>): (d: ODict<K, V>)
    ensures Wf(d)
  {
    if pairs == [] then Empty()
    else Assign(FromPairs(pairs[..|pairs| - 1]), pairs[|pairs| - 1].0, pairs[|pairs| - 1].1)
  }

  /** `d[k] = v` for each pair in order, starting from `d`. */
  function AssignAll<K(==,!new), V>(d: ODict<K, V>, pairs: seq<(K, V)>): ODict<K, V>
  {
    if pairs == [] then d
    else Assign(AssignAll(d, pairs[..|pairs| - 1]), pairs[|pairs| - 1].0, pairs[|pairs| - 1].1)
  }

  lemma AssignAllSnoc<K(!new), V>(d: ODict<K, V>, pairs: seq<(K, V)>, p: (K, V))
    ensures AssignAll(d, pairs + [p]) == Assign(AssignAll(d, pairs), p.0, p.1)
  {
    assert (pairs + [p])[..|pairs|] == pairs;
  }

  lemma FromPairsSnoc<K(!new), V>(pairs: seq<(K, V)>, p: (K, V))
    ensures FromPairs(pairs + [p]) == Assign(FromPairs(pairs), p.0, p.1)
  {
    assert (pairs + [p])[..|pairs|] == pairs;
  }

  /** Building from `xs + ys` is building from `xs` and then assigning the pairs of `ys`. */
  lemma {:induction false} FromPairsAppend<K(!new), V>(xs: seq<(K, V)>, ys: seq<(K, V)>)
    ensures FromPairs(xs + ys) == AssignAll(FromPairs(xs), ys)
    decreases |ys|
  {
    if ys == [] {
      assert xs + ys == xs;
    } else {
      var front := ys[..|ys| - 1];
      var last := ys[|ys| - 1];
      var zs := xs + ys;
      calc {
        FromPairs(zs);
        { assert zs == (xs + front) + [last]; }
        FromPairs((xs + front) + [last]);
        { FromPairsSnoc(xs + front, last); }
        Assign(FromPairs(xs + front), last.0, last.1);
        { FromPairsAppend(xs, front); }
        Assign(AssignAll(FromPairs(xs), front), last.0, last.1);
        AssignAll(FromPairs(xs), ys);
      }
    }
  }

  /** Pair `i` is the last one with key `k`. */
  predicate LastWith<K(==), V>(pairs: seq<(K, V)>, k: K, i: int)
  {
    0 <= i < |pairs| && pairs[i].0 == k && forall j :: i < j < |pairs| ==> pairs[j].0 != k
  }

  /** A key holds the value of its last pair, and is absent exactly when no pair has it. */
  lemma {:induction false} FromPairsLookup<K(!new), V>(pairs: seq<(K, V)>, k: K)
    ensures LastValue(pairs, k, Find(FromPairs(pairs), k))
  {
    if pairs != [] {
      var n := |pairs| - 1;
      FromPairsLookup(pairs[..n], k);
      FromPairsStep(pairs, k);
      if pairs[n].0 == k {
        assert LastWith(pairs, k, n);
      } else {
        LastValueBack(pairs, k, Find(FromPairs(pairs[..n]), k));
      }
    }
  }

  /** `r` is what a dict built from `pairs` holds under `k`. */
  ghost predicate LastValue<K(!new), V>(pairs: seq<(K, V)>, k: K, r: Option<V>)
  {
    && (r.None? <==> forall i :: 0 <= i < |pairs| ==> pairs[i].0 != k)
    && (r.Some? ==> exists i :: LastWith(pairs, k, i) && pairs[i].1 == r.value)
  }

  lemma FromPairsStep<K(!new), V>(pairs: seq<(K, V)>, k: K)
    requires pairs != []
    ensures Find(FromPairs(pairs), k)
      == if pairs[|pairs| - 1].0 == k then Some(pairs[|pairs| - 1].1) else Find(FromPairs(pairs[..|pairs| - 1]), k)
  {
  }

  /** A last pair with another key changes nothing about `k`. */
  lemma LastValueBack<K(!new), V>(pairs: seq<(K, V)>, k: K, r: Option<V>)
    requires pairs != [] && pairs[|pairs| - 1].0 != k
    requires LastValue(pairs[..|pairs| - 1], k, r)
    ensures LastValue(pairs, k, r)
  {
    var n := |pairs| - 1;
    var front := pairs[..n];
    forall i | 0 <= i < n ensures pairs[i] == front[i] {
    }
    if r.Some? {
      var i :| LastWith(front, k, i) && front[i].1 == r.value;
      assert LastWith(pairs, k, i);
    }
  }

  /** Assigning adds at most the assigned entry. */
  lemma {:induction false} AssignEntries<K(!new), V>(d: ODict<K, V>, k: K, v: V)
    ensures forall e :: e in Assign(d, k, v).entries ==> e in d.entries || e == (k, v)
  {
    if k in Keys(d) {
      ReplaceEntries(d, k, v);
    }
  }

  lemma {:induction false} ReplaceEntries<K(!new), V>(d: ODict<K, V>, k: K, v: V)
    ensures forall e :: e in Replace(d, k, v).entries ==> e in d.entries || e == (k, v)
    decreases |d.entries|
  {
    if d.entries != [] {
      var front := ODict(d.entries[..|d.entries| - 1]);
      ReplaceEntries(front, k, v);
      assert d.entries == front.entries + [d.entries[|d.entries| - 1]];
    }
  }

  /** Popping only removes entries. */
  lemma {:induction false} PopEntries<K(!new), V>(d: ODict<K, V>, k: K)
    ensures forall e :: e in Pop(d, k).entries ==> e in d.entries
    decreases |d.entries|
  {
    if d.entries != [] {
      var front := ODict(d.entries[..|d.entries| - 1]);
      PopEntries(front, k);
      assert d.entries == front.entries + [d.entries[|d.entries| - 1]];
    }
  }

  lemma {:induction false} PopAllEntries<K(!new), V>(d: ODict<K, V>, ids: seq<K>)
    ensures forall e :: e in PopAll(d, ids).entries ==> e in d.entries
  {
    if ids != [] {
      PopAllEntries(d, ids[..|ids| - 1]);
      PopEntries(PopAll(d, ids[..|ids| - 1]), ids[|ids| - 1]);
    }
  }

  // ---------------------------------------------------------------------
  // Grouping rows by key

  function KeysOf<K, V>(pairs: seq<(K, V)>): (r: seq<K>)
    ensures |r| == |pairs| && forall i :: 0 <= i < |pairs| ==> r[i] == pairs[i].0
  {
    seq(|pairs|, i requires 0 <= i < |pairs| => pairs[i].0)
  }

  function ValuesOfAll<K, V>(pairs: seq<(K, V)>): (r: seq<V>)
    ensures |r| == |pairs| && forall i :: 0 <= i < |pairs| ==> r[i] == pairs[i].1
  {
    seq(|pairs|, i requires 0 <= i < |pairs| => pairs[i].1)
  }

  /** The values of the rows whose key is `k`, in row order. */
  function ValuesOf<K(==,!new), V>(pairs: seq<(K, V)>, k: K): seq<V>
  {
    if pairs == [] then []
    else ValuesOf(pairs[..|pairs| - 1], k)
         + (if pairs[|pairs| - 1].0 == k then [pairs[|pairs| - 1].1] else [])
  }

  /** Some row with key `x` comes before every row with key `y`. */
  ghost predicate SeenBefore<K(!new), V>(pairs: seq<(K, V)>, x: K, y: K)
  {
    exists i :: 0 <= i < |pairs| && pairs[i].0 == x && forall j :: 0 <= j <= i ==> pairs[j].0 != y
  }

  /** `keys` lists the keys of `pairs` once each, in order of first appearance. */
  ghost predicate FirstSeenOrder<K(!new), V>(pairs: seq<(K, V)>, keys: seq<K>)
  {
    && Distinct(keys)
    && (forall k :: k in keys <==> exists i :: 0 <= i < |pairs| && pairs[i].0 == k)
    && (forall a, b :: 0 <= a < b < |keys| ==> SeenBefore(pairs, keys[a], keys[b]))
  }

  /** The grouping `d` holds, for each key of `pairs`, exactly the values in row order. */
  ghost predicate IsGrouping<K(!new), V>(pairs: seq<(K, V)>, d: ODict<K, seq<V>>)
  {
    Wf(d) && FirstSeenOrder(pairs, Keys(d)) && GroupsExact(pairs, d)
  }

  /** Every group of `d` holds the values of its key's rows, in row order. */
  ghost predicate GroupsExact<K(!new), V>(pairs: seq<(K, V)>, d: ODict<K, seq<V>>)
  {
    forall k :: k in Keys(d) ==> Find(d, k) == Some(ValuesOf(pairs, k))
  }

  lemma ValuesOfAbsent<K(!new), V>(pairs: seq<(K, V)>, k: K)
    requires forall i :: 0 <= i < |pairs| ==> pairs[i].0 != k
    ensures ValuesOf(pairs, k) == []
  {
    if pairs != [] {
      ValuesOfAbsent(pairs[..|pairs| - 1], k);
    }
  }

  lemma SnocPrefix<K, V>(before: seq<(K, V)>, p: (K, V))
    ensures forall i :: 0 <= i < |before| ==> (before + [p])[i] == before[i]
    ensures (before + [p])[|before|] == p
    ensures (before + [p])[..|before|] == before
  {
  }

  /** A row appended to `pairs` adds its value to its own key's values only. */
  lemma ValuesOfSnoc<K(!new), V>(before: seq<(K, V)>, k: K, v: V, x: K)
    ensures ValuesOf(before + [(k, v)], x) == if x == k then ValuesOf(before, x) + [v] else ValuesOf(before, x)
  {
    SnocPrefix(before, (k, v));
    assert ValuesOf(before, x) + [] == ValuesOf(before, x);
  }

  /** Appending to the group of a key already seen keeps the grouping exact. */
  lemma GroupStepSeen<K(!new), V>(before: seq<(K, V)>, groups: ODict<K, seq<V>>, k: K, v: V)
    requires IsGrouping(before, groups) && k in Keys(groups)
    ensures IsGrouping(before + [(k, v)], Assign(groups, k, Find(groups, k).value + [v]))
  {
    var g := Assign(groups, k, Find(groups, k).value + [v]);
    assert Keys(g) == Keys(groups);
    SeenValues(before, groups, k, v);
    SeenOrder(before, Keys(groups), k, v);
  }

  lemma SeenValues<K(!new), V>(before: seq<(K, V)>, groups: ODict<K, seq<V>>, k: K, v: V)
    requires GroupsExact(before, groups) && k in Keys(groups)
    ensures GroupsExact(before + [(k, v)], Assign(groups, k, Find(groups, k).value + [v]))
  {
    var g := Assign(groups, k, Find(groups, k).value + [v]);
    forall x | x in Keys(g) ensures Find(g, x) == Some(ValuesOf(before + [(k, v)], x)) {
      ValuesOfSnoc(before, k, v, x);
    }
  }

  /** A row whose key is already listed leaves the first-seen order as it is. */
  lemma SeenOrder<K(!new), V>(before: seq<(K, V)>, keys: seq<K>, k: K, v: V)
    requires FirstSeenOrder(before, keys) && k in keys
    ensures FirstSeenOrder(before + [(k, v)], keys)
  {
    var after := before + [(k, v)];
    SnocPrefix(before, (k, v));
    forall a, b | 0 <= a < b < |keys| ensures SeenBefore(after, keys[a], keys[b]) {
      assert SeenBefore(before, keys[a], keys[b]);
      var i :| 0 <= i < |before| && before[i].0 == keys[a] && forall j :: 0 <= j <= i ==> before[j].0 != keys[b];
      assert after[i].0 == keys[a];
    }
    forall x | x in keys ensures exists i :: 0 <= i < |after| && after[i].0 == x {
      var i :| 0 <= i < |before| && before[i].0 == x;
      assert after[i].0 == x;
    }
  }

  /** A key seen for the first time opens a new group at the end. */
  lemma GroupStepNew<K(!new), V>(before: seq<(K, V)>, groups: ODict<K, seq<V>>, k: K, v: V)
    requires IsGrouping(before, groups) && k !in Keys(groups)
    ensures IsGrouping(before + [(k, v)], Assign(groups, k, [v]))
  {
    NewKeyAbsent(before, Keys(groups), k);
    NewValues(before, groups, k, v);
    NewOrder(before, Keys(groups), k, v);
  }

  lemma NewKeyAbsent<K(!new), V>(before: seq<(K, V)>, keys: seq<K>, k: K)
    requires FirstSeenOrder(before, keys) && k !in keys
    ensures forall i :: 0 <= i < |before| ==> before[i].0 != k
  {
    forall i | 0 <= i < |before| ensures before[i].0 != k {
      assert before[i].0 in keys;
    }
  }

  lemma NewValues<K(!new), V>(before: seq<(K, V)>, groups: ODict<K, seq<V>>, k: K, v: V)
    requires GroupsExact(before, groups) && k !in Keys(groups)
    requires forall i :: 0 <= i < |before| ==> before[i].0 != k
    ensures GroupsExact(before + [(k, v)], Assign(groups, k, [v]))
  {
    var g := Assign(groups, k, [v]);
    ValuesOfAbsent(before, k);
    forall x | x in Keys(g) ensures Find(g, x) == Some(ValuesOf(before + [(k, v)], x)) {
      ValuesOfSnoc(before, k, v, x);
      if x == k {
        assert ValuesOf(before, x) + [v] == [v];
      }
    }
  }

  /** A new key goes to the end of the first-seen order. */
  lemma NewOrder<K(!new), V>(before: seq<(K, V)>, keys: seq<K>, k: K, v: V)
    requires FirstSeenOrder(before, keys) && k !in keys
    requires forall i :: 0 <= i < |before| ==> before[i].0 != k
    ensures FirstSeenOrder(before + [(k, v)], keys + [k])
  {
    var after := before + [(k, v)];
    var gk := keys + [k];
    SnocPrefix(before, (k, v));
    DistinctSnoc(keys, k);
    forall a, b | 0 <= a < b < |gk| ensures SeenBefore(after, gk[a], gk[b]) {
      if b < |gk| - 1 {
        assert SeenBefore(before, gk[a], gk[b]);
        var i :| 0 <= i < |before| && before[i].0 == gk[a] && forall j :: 0 <= j <= i ==> before[j].0 != gk[b];
        assert after[i].0 == gk[a];
      } else {
        var x := gk[a];
        assert x == keys[a] && x in keys;
        var i :| 0 <= i < |before| && before[i].0 == x;
        assert after[i].0 == x;
      }
    }
    forall x | x in gk ensures exists i :: 0 <= i < |after| && after[i].0 == x {
      if x != k {
        var i :| 0 <= i < |before| && before[i].0 == x;
        assert after[i].0 == x;
      } else {
        assert after[|before|].0 == k;
      }
    }
  }

  /** `setdefault(k, []).append(v)` for each row in turn, as a value. */
  function Grouped<K(==,!new), V>(pairs: seq<(K, V)>): ODict<K, seq<V>>
  {
    if pairs == [] then Empty()
    else
      var g := Grouped(pairs[..|pairs| - 1]);
      var (k, v) := pairs[|pairs| - 1];
      match Find(g, k)
      case Some(vs) => Assign(g, k, vs + [v])
      case None => Assign(g, k, [v])
  }

  /** The grouping holds the keys in first-seen order and each key's values in row order. */
  lemma {:induction false} GroupedIsGrouping<K(!new), V>(pairs: seq<(K, V)>)
    ensures IsGrouping(pairs, Grouped(pairs))
  {
    if pairs != [] {
      var before := pairs[..|pairs| - 1];
      var (k, v) := pairs[|pairs| - 1];
      assert pairs == before + [(k, v)];
      GroupedIsGrouping(before);
      if k in Keys(Grouped(before)) {
        GroupStepSeen(before, Grouped(before), k, v);
      } else {
        GroupStepNew(before, Grouped(before), k, v);
      }
    }
  }

  /**
   * The loop `for k, v in pairs: groups.setdefault(k, []).append(v)`.
   */
  method GroupInOrder<K(==,!new), V>(pairs: seq<(K, V)>) returns (groups: ODict<K, seq<V>>)
    ensures groups == Grouped(pairs)
    ensures IsGrouping(pairs, groups)
  {
    groups := Empty();
    var n := 0;
    while n < |pairs|
      invariant 0 <= n <= |pairs|
      invariant groups == Grouped(pairs[..n])
    {
      var (k, v) := pairs[n];
      assert pairs[..n + 1][..n] == pairs[..n];
      var existing := Find(groups, k);
      if existing.Some? {
        groups := Assign(groups, k, existing.value + [v]);
      } else {
        groups := Assign(groups, k, [v]);
      }
      n := n + 1;
    }
    assert pairs[..n] == pairs;
    GroupedIsGrouping(pairs);
  }

  /** Looking a key up in a grouping finds exactly the values of that key's rows. */
  lemma GroupingFind<K(!new), V>(pairs: seq<(K, V)>, d: ODict<K, seq<V>>, k: K)
    requires IsGrouping(pairs, d)
    ensures Find(d, k).Some? <==> k in KeysOf(pairs)
    ensures Find(d, k).Some? ==> Find(d, k).value == ValuesOf(pairs, k)
  {
    if k in KeysOf(pairs) {
      var i :| 0 <= i < |pairs| && KeysOf(pairs)[i] == k;
      assert pairs[i].0 == k;
    }
    if k in Keys(d) {
      var i :| 0 <= i < |pairs| && pairs[i].0 == k;
      assert KeysOf(pairs)[i] == k;
    }
  }

  // ---------------------------------------------------------------------
  // Every value lands in exactly one group

  /** The groups of `pairs` listed in `keys` order, concatenated. */
  function Flatten<K(==,!new), V>(pairs: seq<(K, V)>, keys: seq<K>): seq<V>
  {
    if keys == [] then [] else ValuesOf(pairs, keys[0]) + Flatten(pairs, keys[1..])
  }

  lemma {:induction false} FlattenSnoc<K(!new), V>(front: seq<(K, V)>, k: K, v: V, keys: seq<K>)
    requires Distinct(keys)
    ensures multiset(Flatten(front + [(k, v)], keys))
         == multiset(Flatten(front, keys)) + (if k in keys then multiset{v} else multiset{})
  {
    if keys != [] {
      var pairs := front + [(k, v)];
      var rest := keys[1..];
      ValuesOfSnoc(front, k, v, keys[0]);
      FlattenSnoc(front, k, v, rest);
      assert Flatten(pairs, keys) == ValuesOf(pairs, keys[0]) + Flatten(pairs, rest);
      assert Flatten(front, keys) == ValuesOf(front, keys[0]) + Flatten(front, rest);
      assert k in keys <==> k == keys[0] || k in rest;
      assert k == keys[0] ==> k !in rest;
    }
  }

  /**
   * Concatenating the groups over any distinct list of keys covering every
   * row key gives back the values of all rows, each exactly once.
   */
  lemma {:induction false} GroupsPartition<K(!new), V>(pairs: seq<(K, V)>, keys: seq<K>)
    requires Distinct(keys)
    requires forall i :: 0 <= i < |pairs| ==> pairs[i].0 in keys
    ensures multiset(Flatten(pairs, keys)) == multiset(ValuesOfAll(pairs))
  {
    if pairs == [] {
      FlattenEmpty(pairs, keys);
    } else {
      var front := pairs[..|pairs| - 1];
      var last := pairs[|pairs| - 1];
      assert pairs == front + [(last.0, last.1)];
      GroupsPartition(front, keys);
      FlattenSnoc(front, last.0, last.1, keys);
      assert ValuesOfAll(pairs) == ValuesOfAll(front) + [last.1];
    }
  }

  /** The entries of a grouping, concatenated, are its groups in key order. */
  lemma {:induction false} EntriesFlatten<K(!new), V>(pairs: seq<(K, V)>, es: seq<(K, seq<V>)>)
    requires forall i :: 0 <= i < |es| ==> es[i].1 == ValuesOf(pairs, es[i].0)
    ensures AllValues(es) == Flatten(pairs, KeysOf(es))
  {
    if es != [] {
      EntriesFlatten(pairs, es[1..]);
      assert KeysOf(es)[1..] == KeysOf(es[1..]);
    }
  }

  /** `AllIds` for any grouping. */
  function AllValues<K, V>(es: seq<(K, seq<V>)>): seq<V>
  {
    if es == [] then [] else es[0].1 + AllValues(es[1..])
  }

  /** Each entry of a grouping holds its key's values. */
  lemma GroupingEntries<K(!new), V>(pairs: seq<(K, V)>, d: ODict<K, seq<V>>)
    requires IsGrouping(pairs, d)
    ensures forall i :: 0 <= i < |d.entries| ==> d.entries[i].1 == ValuesOf(pairs, d.entries[i].0)
  {
    forall i | 0 <= i < |d.entries| ensures d.entries[i].1 == ValuesOf(pairs, d.entries[i].0) {
      FindEntry(d, i);
      assert d.entries[i].0 in Keys(d);
    }
  }

  /** An entry of a grouping holds its key's values, and its key is the key of some row. */
  lemma GroupingEntry<K(!new), V>(pairs: seq<(K, V)>, d: ODict<K, seq<V>>, e: (K, seq<V>))
    requires IsGrouping(pairs, d) && e in d.entries
    ensures e.1 == ValuesOf(pairs, e.0)
    ensures exists j :: 0 <= j < |pairs| && pairs[j].0 == e.0
  {
    var i :| 0 <= i < |d.entries| && d.entries[i] == e;
    FindEntry(d, i);
    assert e.0 in Keys(d);
  }

  /** The same for the grouping the loop builds. */
  lemma GroupedEntry<K(!new), V>(pairs: seq<(K, V)>, e: (K, seq<V>))
    requires e in Grouped(pairs).entries
    ensures e.1 == ValuesOf(pairs, e.0)
    ensures exists j :: 0 <= j < |pairs| && pairs[j].0 == e.0
  {
    GroupedIsGrouping(pairs);
    GroupingEntry(pairs, Grouped(pairs), e);
  }

  /** The groups of a grouping, concatenated, hold every row's value exactly once. */
  lemma GroupingPartition<K(!new), V>(pairs: seq<(K, V)>, d: ODict<K, seq<V>>)
    requires IsGrouping(pairs, d)
    ensures multiset(AllValues(d.entries)) == multiset(ValuesOfAll(pairs))
  {
    GroupingEntries(pairs, d);
    EntriesFlatten(pairs, d.entries);
    assert KeysOf(d.entries) == Keys(d);
    GroupsPartition(pairs, Keys(d));
  }

  lemma FlattenEmpty<K(!new), V>(pairs: seq<(K, V)>, keys: seq<K>)
    requires pairs == []
    ensures Flatten(pairs, keys) == []
  {
    if keys != [] {
      FlattenEmpty(pairs, keys[1..]);
    }
  }
}
