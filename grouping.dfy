/** Grouping a sequence of keys the way an insertion-ordered dictionary of
    lists does: keys in the order they are first seen, and for each key the
    positions that carry it, in order. */
module Grouping {

  /** The distinct keys of `ks`, in the order of their first occurrence. */
  function FirstSeen<K(==,!new)>(ks: seq<K>): (fs: seq<K>)
    ensures forall x :: x in fs <==> x in ks
    ensures forall a, b :: 0 <= a < b < |fs| ==> fs[a] != fs[b]
  {
    if ks == [] then []
    else
      var prev := FirstSeen(ks[..|ks| - 1]);
      var x := ks[|ks| - 1];
      assert forall y :: y in ks <==> y in ks[..|ks| - 1] || y == x;
      if x in prev then prev else prev + [x]
  }

  /** The positions of `ks` that hold `k`, in increasing order. */
  function Positions<K(==,!new)>(ks: seq<K>, k: K): (ps: seq<nat>)
    ensures forall m :: 0 <= m < |ps| ==> ps[m] < |ks| && ks[ps[m]] == k
    ensures forall m, n :: 0 <= m < n < |ps| ==> ps[m] < ps[n]
  {
    if ks == [] then []
    else
      var n := |ks| - 1;
      var prev := Positions(ks[..n], k);
      if ks[n] == k then prev + [n] else prev
  }

  /** Every position that holds `k` is listed. */
  lemma {:induction false} PositionsComplete<K(!new)>(ks: seq<K>, k: K, i: nat)
    requires i < |ks| && ks[i] == k
    ensures i in Positions(ks, k)
  {
    var n := |ks| - 1;
    if i < n {
      PositionsComplete(ks[..n], k, i);
    }
  }

  /** `y` does not occur in `ks` before `x` has. */
  predicate SeenBefore<K(==,!new)>(ks: seq<K>, x: K, y: K) {
    forall j :: 0 <= j < |ks| && ks[j] == y ==> x in ks[..j]
  }

  /** Keys come out in first-seen order: each key occurs before every
      occurrence of any key listed after it. */
  lemma {:induction false} FirstSeenOrder<K(!new)>(ks: seq<K>)
    ensures forall a, b :: 0 <= a < b < |FirstSeen(ks)| ==> SeenBefore(ks, FirstSeen(ks)[a], FirstSeen(ks)[b])
  {
    if ks != [] {
      var n := |ks| - 1;
      var init, x := ks[..n], ks[n];
      FirstSeenOrder(init);
      var prev, fs := FirstSeen(init), FirstSeen(ks);
      forall a, b | 0 <= a < b < |fs| ensures SeenBefore(ks, fs[a], fs[b]) {
        forall j | 0 <= j < |ks| && ks[j] == fs[b] ensures fs[a] in ks[..j] {
          assert fs[a] in init;
          if j < n {
            assert ks[..j] == init[..j];
            if b < |prev| {
              assert SeenBefore(init, prev[a], prev[b]);
              assert init[j] == prev[b];
            }
          } else {
            assert ks[..j] == init;
          }
        }
      }
    }
  }

  /** Positions of `k` within `ks` followed by one more key. */
  lemma PositionsSnoc<K(!new)>(ks: seq<K>, x: K, k: K)
    ensures Positions(ks + [x], k) == Positions(ks, k) + (if x == k then [|ks|] else [])
  {
    assert (ks + [x])[..|ks|] == ks;
  }

  /** A key that does not occur has no positions. */
  lemma PositionsAbsent<K(!new)>(ks: seq<K>, k: K)
    requires k !in ks
    ensures Positions(ks, k) == []
  {
  }

  /** The number of positions the keys `fs` hold in `ks`. */
  function CountOver<K(==,!new)>(fs: seq<K>, ks: seq<K>): nat {
    if fs == [] then 0 else |Positions(ks, fs[0])| + CountOver(fs[1..], ks)
  }

  lemma {:induction false} CountOverAppendKey<K(!new)>(fs: seq<K>, x: K, ks: seq<K>)
    ensures CountOver(fs + [x], ks) == CountOver(fs, ks) + |Positions(ks, x)|
  {
    if fs != [] {
      assert (fs + [x])[1..] == fs[1..] + [x];
      CountOverAppendKey(fs[1..], x, ks);
    }
  }

  lemma {:induction false} CountOverSnoc<K(!new)>(fs: seq<K>, ks: seq<K>, x: K)
    requires forall a, b :: 0 <= a < b < |fs| ==> fs[a] != fs[b]
    ensures CountOver(fs, ks + [x]) == CountOver(fs, ks) + (if x in fs then 1 else 0)
  {
    if fs != [] {
      PositionsSnoc(ks, x, fs[0]);
      CountOverSnoc(fs[1..], ks, x);
      assert x in fs <==> x == fs[0] || x in fs[1..];
      assert x == fs[0] ==> x !in fs[1..];
    }
  }

  /** Every position belongs to exactly one key's group: the group sizes add
      up to the length of the sequence. */
  lemma {:induction false} GroupSizesSum<K(!new)>(ks: seq<K>)
    ensures CountOver(FirstSeen(ks), ks) == |ks|
  {
    if ks != [] {
      var n := |ks| - 1;
      var init, x := ks[..n], ks[n];
      assert ks == init + [x];
      GroupSizesSum(init);
      var prev := FirstSeen(init);
      CountOverSnoc(prev, init, x);
      if x !in prev {
        CountOverAppendKey(prev, x, ks);
        PositionsSnoc(init, x, x);
        PositionsAbsent(init, x);
      }
    }
  }

  /** An insertion-ordered dictionary of lists: its keys in insertion
      order, and the list of each key. */
  datatype Dict<K, V> = Dict(order: seq<K>, members: map<K, seq<V>>)

  /** `if k not in d: d[k] = []` followed by `d[k].append(v)`. */
  function Insert<K(==), V>(d: Dict<K, V>, k: K, v: V): Dict<K, V> {
    var ready := if k in d.members then d else Dict(d.order + [k], d.members[k := []]);
    Dict(ready.order, ready.members[k := ready.members[k] + [v]])
  }

  /** The dictionary built by inserting `vs[i]` under `ks[i]`, for each `i`
      in turn, starting from the empty dictionary. */
  function GroupPairs<K(==), V>(ks: seq<K>, vs: seq<V>): Dict<K, V>
    requires |ks| == |vs|
  {
    if ks == [] then Dict([], map[])
    else
      var n := |ks| - 1;
      Insert(GroupPairs(ks[..n], vs[..n]), ks[n], vs[n])
  }

  /** The values at the positions of `k`, in order. */
  function Select<K(==,!new), V>(ks: seq<K>, vs: seq<V>, k: K): seq<V>
    requires |ks| == |vs|
  {
    var ps := Positions(ks, k);
    seq(|ps|, m requires 0 <= m < |ps| => vs[ps[m]])
  }

  lemma GroupPairsSnoc<K(!new), V>(ks: seq<K>, vs: seq<V>, x: K, v: V)
    requires |ks| == |vs|
    ensures GroupPairs(ks + [x], vs + [v]) == Insert(GroupPairs(ks, vs), x, v)
  {
    assert (ks + [x])[..|ks|] == ks;
    assert (vs + [v])[..|vs|] == vs;
  }

  /** What `Insert` does to the key order and to the lists. */
  lemma InsertShape<K(!new), V>(d: Dict<K, V>, k: K, v: V)
    ensures Insert(d, k, v).order == if k in d.members then d.order else d.order + [k]
    ensures Insert(d, k, v).members == d.members[k := (if k in d.members then d.members[k] else []) + [v]]
  {
    if k !in d.members {
      var m1 := d.members[k := []];
      assert m1[k := m1[k] + [v]] == d.members[k := [] + [v]];
    }
  }

  /** One more pair appends its value to the list of its key, and to no
      other list. */
  lemma SelectSnoc<K(!new), V>(ks: seq<K>, vs: seq<V>, x: K, v: V, k: K)
    requires |ks| == |vs|
    ensures Select(ks + [x], vs + [v], k) == Select(ks, vs, k) + (if x == k then [v] else [])
  {
    PositionsSnoc(ks, x, k);
    var ps := Positions(ks, k);
    forall m | 0 <= m < |ps| ensures (vs + [v])[ps[m]] == vs[ps[m]] {
    }
  }

  lemma FirstSeenSnoc<K(!new)>(ks: seq<K>, x: K)
    ensures FirstSeen(ks + [x]) == if x in FirstSeen(ks) then FirstSeen(ks) else FirstSeen(ks) + [x]
  {
    assert (ks + [x])[..|ks|] == ks;
  }

  /** The dictionary the insertions build is the grouping by key: its keys
      are the keys that occur, in first-seen order, and the list of each key
      holds the values at that key's positions, in order. */
  lemma {:induction false} GroupPairsGroups<K(!new), V>(ks: seq<K>, vs: seq<V>)
    requires |ks| == |vs|
    ensures GroupPairs(ks, vs).order == FirstSeen(ks)
    ensures forall k :: k in GroupPairs(ks, vs).members <==> k in ks
    ensures forall k :: k in GroupPairs(ks, vs).members ==> GroupPairs(ks, vs).members[k] == Select(ks, vs, k)
  {
    if ks != [] {
      var n := |ks| - 1;
      var ks0, vs0, x, v := ks[..n], vs[..n], ks[n], vs[n];
      assert ks == ks0 + [x] && vs == vs0 + [v];
      GroupPairsGroups(ks0, vs0);
      var d := GroupPairs(ks0, vs0);
      GroupPairsSnoc(ks0, vs0, x, v);
      InsertShape(d, x, v);
      FirstSeenSnoc(ks0, x);
      forall k | k in GroupPairs(ks, vs).members ensures GroupPairs(ks, vs).members[k] == Select(ks, vs, k) {
        SelectSnoc(ks0, vs0, x, v, k);
        if k == x && x !in ks0 {
          PositionsAbsent(ks0, x);
        }
      }
    }
  }

  /** The number of values in the lists of the keys `fs`. */
  function Total<K(==), V>(d: Dict<K, V>, fs: seq<K>): nat {
    if fs == [] then 0
    else (if fs[0] in d.members then |d.members[fs[0]]| else 0) + Total(d, fs[1..])
  }

  lemma {:induction false} TotalCountsPositions<K(!new), V>(d: Dict<K, V>, fs: seq<K>, ks: seq<K>)
    requires forall k :: k in fs ==> k in d.members && |d.members[k]| == |Positions(ks, k)|
    ensures Total(d, fs) == CountOver(fs, ks)
  {
    if fs != [] {
      TotalCountsPositions(d, fs[1..], ks);
    }
  }
}
