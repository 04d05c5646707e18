/** Grouping of records under keys, in the shape the reports use everywhere:
    `xs.reduce((acc, x) => { acc[key] = step(acc[key] ?? init, x); return acc }, {})`
    followed by `Object.entries(acc)`.  The accumulator is an association list
    whose keys appear in the order they were first seen.

    `Tally` is that fold, step by step.  `GroupBy`, `Members` and `Dedup` are an
    independent description of the same result: the distinct keys in first-seen
    order, each with the sub-sequence of records carrying it.  The lemmas connect
    the two and state that the groups partition the keyed records. */
module Grouping {
  import opened Wrappers

  /** Sum of `w` over `xs`, added left to right as `reduce` does. */
  function Sum<T>(xs: seq<T>, w: T -> real): real
  {
    if |xs| == 0 then 0.0 else Sum(xs[..|xs| - 1], w) + w(xs[|xs| - 1])
  }

  /** Left fold, `xs.reduce(step, init)`. */
  function Fold<T, V>(xs: seq<T>, init: V, step: (V, T) -> V): V
  {
    if |xs| == 0 then init else step(Fold(xs[..|xs| - 1], init, step), xs[|xs| - 1])
  }

  /** The records that have a key at all, in input order. */
  function Keyed<T, K>(xs: seq<T>, key: T -> Option<K>): (r: seq<T>)
    ensures |r| <= |xs|
  {
    if |xs| == 0 then []
    else if key(xs[|xs| - 1]).Some? then Keyed(xs[..|xs| - 1], key) + [xs[|xs| - 1]]
    else Keyed(xs[..|xs| - 1], key)
  }

  /** The keys of the keyed records, in input order, repetitions included. */
  function KeyList<T, K>(xs: seq<T>, key: T -> Option<K>): seq<K>
  {
    if |xs| == 0 then []
    else match key(xs[|xs| - 1])
      case Some(k) => KeyList(xs[..|xs| - 1], key) + [k]
      case None => KeyList(xs[..|xs| - 1], key)
  }

  /** The records whose key is `k`, in input order. */
  function Members<T, K(==)>(xs: seq<T>, key: T -> Option<K>, k: K): seq<T>
  {
    if |xs| == 0 then []
    else if key(xs[|xs| - 1]) == Some(k) then Members(xs[..|xs| - 1], key, k) + [xs[|xs| - 1]]
    else Members(xs[..|xs| - 1], key, k)
  }

  /** `ks` without repetitions, each key kept at its first occurrence. */
  function Dedup<K(==)>(ks: seq<K>): seq<K>
    decreases |ks|
  {
    if |ks| == 0 then [] else [ks[0]] + Dedup(Without(ks[1..], ks[0]))
  }

  /** `ks` with every occurrence of `k` removed. */
  function Without<K(==)>(ks: seq<K>, k: K): (r: seq<K>)
    ensures |r| <= |ks|
  {
    if |ks| == 0 then []
    else if ks[0] == k then Without(ks[1..], k)
    else [ks[0]] + Without(ks[1..], k)
  }

  lemma {:induction false} WithoutMembership<K>(ks: seq<K>, k: K)
    ensures forall j :: j in Without(ks, k) <==> j in ks && j != k
    decreases |ks|
  {
    if |ks| > 0 {
      WithoutMembership(ks[1..], k);
      assert ks == [ks[0]] + ks[1..];
    }
  }

  function Keys<K, V>(l: seq<(K, V)>): (r: seq<K>)
    ensures |r| == |l|
    ensures forall i :: 0 <= i < |l| ==> r[i] == l[i].0
  {
    if |l| == 0 then [] else [l[0].0] + Keys(l[1..])
  }

  /** The value stored under `k`, as `acc[k]` reads it. */
  function Lookup<K(==), V>(l: seq<(K, V)>, k: K): Option<V>
  {
    if |l| == 0 then None else if l[0].0 == k then Some(l[0].1) else Lookup(l[1..], k)
  }

  predicate DistinctKeys<K(==), V>(l: seq<(K, V)>)
  {
    forall i, j :: 0 <= i < j < |l| ==> l[i].0 != l[j].0
  }

  // ---------------------------------------------------------------------------
  // The fold, as the source writes it

  /** `acc[k] = step(acc[k] ?? init, x)`: an existing key keeps its position,
      a new key is appended. */
  function Bump<T, K(==), V>(acc: seq<(K, V)>, k: K, x: T, init: V, step: (V, T) -> V): seq<(K, V)>
  {
    if |acc| == 0 then [(k, step(init, x))]
    else if acc[0].0 == k then [(k, step(acc[0].1, x))] + acc[1..]
    else [acc[0]] + Bump(acc[1..], k, x, init, step)
  }

  /** `Object.entries(xs.reduce(...))`; records without a key are skipped. */
  function Tally<T, K(==), V>(xs: seq<T>, key: T -> Option<K>, init: V, step: (V, T) -> V): seq<(K, V)>
  {
    if |xs| == 0 then []
    else match key(xs[|xs| - 1])
      case Some(k) => Bump(Tally(xs[..|xs| - 1], key, init, step), k, xs[|xs| - 1], init, step)
      case None => Tally(xs[..|xs| - 1], key, init, step)
  }

  // ---------------------------------------------------------------------------
  // The reference description

  /** The distinct keys in first-seen order, each with its members. */
  function GroupBy<T, K(==)>(xs: seq<T>, key: T -> Option<K>): seq<(K, seq<T>)>
  {
    var ks := Dedup(KeyList(xs, key));
    seq(|ks|, i requires 0 <= i < |ks| => (ks[i], Members(xs, key, ks[i])))
  }

  /** Each group folded on its own. */
  function Summarize<T, K, V>(groups: seq<(K, seq<T>)>, init: V, step: (V, T) -> V): (r: seq<(K, V)>)
    ensures |r| == |groups|
    ensures forall i :: 0 <= i < |groups| ==> r[i] == (groups[i].0, Fold(groups[i].1, init, step))
  {
    if |groups| == 0 then []
    else [(groups[0].0, Fold(groups[0].1, init, step))] + Summarize(groups[1..], init, step)
  }

  function SizeOfGroups<K, T>(groups: seq<(K, seq<T>)>): nat
  {
    if |groups| == 0 then 0 else |groups[0].1| + SizeOfGroups(groups[1..])
  }

  function SumOfGroups<K, T>(groups: seq<(K, seq<T>)>, w: T -> real): real
  {
    if |groups| == 0 then 0.0 else Sum(groups[0].1, w) + SumOfGroups(groups[1..], w)
  }

  // ---------------------------------------------------------------------------
  // Lemmas about the reference

  lemma {:induction false} KeyListMembership<T, K>(xs: seq<T>, key: T -> Option<K>, k: K)
    ensures k in KeyList(xs, key) <==> |Members(xs, key, k)| > 0
    decreases |xs|
  {
    if |xs| > 0 {
      KeyListMembership(xs[..|xs| - 1], key, k);
    }
  }

  lemma {:induction false} DedupMembership<K>(ks: seq<K>)
    ensures forall k :: k in Dedup(ks) <==> k in ks
    decreases |ks|
  {
    if |ks| > 0 {
      DedupMembership(Without(ks[1..], ks[0]));
      WithoutMembership(ks[1..], ks[0]);
      assert ks == [ks[0]] + ks[1..];
    }
  }

  lemma {:induction false} DedupDistinct<K>(ks: seq<K>)
    ensures forall i, j :: 0 <= i < j < |Dedup(ks)| ==> Dedup(ks)[i] != Dedup(ks)[j]
    decreases |ks|
  {
    if |ks| > 0 {
      var rest := Without(ks[1..], ks[0]);
      WithoutMembership(ks[1..], ks[0]);
      DedupDistinct(rest);
      DedupMembership(rest);
      var d := Dedup(ks);
      assert d == [ks[0]] + Dedup(rest);
      forall i, j | 0 <= i < j < |d| ensures d[i] != d[j] {
        if i == 0 {
          assert d[j] == Dedup(rest)[j - 1];
          assert d[j] in Dedup(rest);
        }
      }
    }
  }

  /** A key that occurs again later does not move: appending a key already seen
      leaves the first-seen list unchanged, and a new key goes to the end. */
  lemma {:induction false} DedupSnoc<K>(ks: seq<K>, k: K)
    ensures Dedup(ks + [k]) == if k in ks then Dedup(ks) else Dedup(ks) + [k]
    decreases |ks|
  {
    if |ks| == 0 {
      assert Without([k][1..], k) == [];
    } else {
      var a := ks[0];
      assert (ks + [k])[0] == a;
      assert (ks + [k])[1..] == ks[1..] + [k];
      WithoutSnoc(ks[1..], a, k);
      if k == a {
        assert Without(ks[1..] + [k], a) == Without(ks[1..], a);
      } else {
        assert Without(ks[1..] + [k], a) == Without(ks[1..], a) + [k];
        DedupSnoc(Without(ks[1..], a), k);
        WithoutMembership(ks[1..], a);
        assert ks == [a] + ks[1..];
        assert k in Without(ks[1..], a) <==> k in ks;
      }
    }
  }

  lemma {:induction false} WithoutSnoc<K>(ks: seq<K>, a: K, k: K)
    ensures Without(ks + [k], a) == Without(ks, a) + (if k == a then [] else [k])
    decreases |ks|
  {
    if |ks| == 0 {
      assert Without([k][1..], a) == [];
    } else {
      assert (ks + [k])[1..] == ks[1..] + [k];
      WithoutSnoc(ks[1..], a, k);
    }
  }

  /** The groups' keys are the distinct keys in first-seen order; each group is
      non-empty and holds exactly the records carrying its key, in input order. */
  lemma GroupByShape<T, K>(xs: seq<T>, key: T -> Option<K>)
    ensures Keys(GroupBy(xs, key)) == Dedup(KeyList(xs, key))
    ensures DistinctKeys(GroupBy(xs, key))
    ensures forall i :: 0 <= i < |GroupBy(xs, key)| ==>
      |GroupBy(xs, key)[i].1| > 0 && GroupBy(xs, key)[i].1 == Members(xs, key, GroupBy(xs, key)[i].0)
    ensures forall k :: k in Keys(GroupBy(xs, key)) <==> |Members(xs, key, k)| > 0
  {
    var ks := Dedup(KeyList(xs, key));
    DedupDistinct(KeyList(xs, key));
    DedupMembership(KeyList(xs, key));
    forall k ensures k in KeyList(xs, key) <==> |Members(xs, key, k)| > 0 {
      KeyListMembership(xs, key, k);
    }
    assert Keys(GroupBy(xs, key)) == ks;
  }

  /** Every member of every group carries that group's key. */
  lemma {:induction false} MembersCarryKey<T, K>(xs: seq<T>, key: T -> Option<K>, k: K)
    ensures forall x :: x in Members(xs, key, k) ==> key(x) == Some(k)
    decreases |xs|
  {
    if |xs| > 0 {
      MembersCarryKey(xs[..|xs| - 1], key, k);
    }
  }

  // ---------------------------------------------------------------------------
  // The fold equals the reference

  /** `Bump` on a list with distinct keys changes only the entry for `k`, or
      appends one when `k` is new. */
  lemma {:induction false} BumpAt<T, K, V>(acc: seq<(K, V)>, k: K, x: T, init: V, step: (V, T) -> V)
    requires DistinctKeys(acc)
    ensures k in Keys(acc) ==> |Bump(acc, k, x, init, step)| == |acc|
    ensures k !in Keys(acc) ==>
      (|Bump(acc, k, x, init, step)| == |acc| + 1 && Bump(acc, k, x, init, step)[|acc|] == (k, step(init, x)))
    ensures forall i :: 0 <= i < |acc| ==>
      Bump(acc, k, x, init, step)[i] == if acc[i].0 == k then (k, step(acc[i].1, x)) else acc[i]
    decreases |acc|
  {
    if |acc| > 0 {
      assert DistinctKeys(acc[1..]) by {
        forall i, j | 0 <= i < j < |acc[1..]| ensures acc[1..][i].0 != acc[1..][j].0 {
          assert acc[1..][i] == acc[i + 1] && acc[1..][j] == acc[j + 1];
        }
      }
      BumpAt(acc[1..], k, x, init, step);
      assert Keys(acc) == [acc[0].0] + Keys(acc[1..]);
      if acc[0].0 == k {
        forall j | 0 <= j < |acc| - 1 ensures Keys(acc[1..])[j] != k {
          assert acc[1..][j] == acc[j + 1];
        }
        assert k !in Keys(acc[1..]);
      }
    }
  }

  lemma FoldSnoc<T, V>(s: seq<T>, x: T, init: V, step: (V, T) -> V)
    ensures Fold(s + [x], init, step) == step(Fold(s, init, step), x)
  {
    assert (s + [x])[..|s|] == s;
  }

  lemma MembersSnoc<T, K>(p: seq<T>, x: T, key: T -> Option<K>, j: K)
    ensures Members(p + [x], key, j) == Members(p, key, j) + (if key(x) == Some(j) then [x] else [])
  {
    assert (p + [x])[..|p|] == p;
  }

  /** One more record with key `k`: the summarised groups change as `Bump` says. */
  lemma BumpGroupsSnoc<T, K, V>(p: seq<T>, x: T, k: K, key: T -> Option<K>, init: V, step: (V, T) -> V)
    requires key(x) == Some(k)
    ensures Bump(Summarize(GroupBy(p, key), init, step), k, x, init, step)
         == Summarize(GroupBy(p + [x], key), init, step)
  {
    var xs := p + [x];
    assert xs[..|xs| - 1] == p;
    var before := Summarize(GroupBy(p, key), init, step);
    var after := Summarize(GroupBy(xs, key), init, step);
    GroupByShape(p, key);
    var ks := Dedup(KeyList(p, key));
    assert Keys(before) == ks;
    assert DistinctKeys(before);
    BumpAt(before, k, x, init, step);
    var bumped := Bump(before, k, x, init, step);
    assert KeyList(xs, key) == KeyList(p, key) + [k];
    DedupSnoc(KeyList(p, key), k);
    DedupMembership(KeyList(p, key));
    KeyListMembership(p, key, k);
    MembersSnoc(p, x, key, k);
    FoldSnoc(Members(p, key, k), x, init, step);
    assert |bumped| == |after|;
    forall i | 0 <= i < |after| ensures bumped[i] == after[i] {
      if i < |before| {
        MembersSnoc(p, x, key, before[i].0);
      } else {
        assert Members(p, key, k) == [];
      }
    }
  }

  /** The fold (`Tally`) and the reference (`GroupBy` then fold each group)
      agree on every input. */
  lemma {:induction false} TallyIsGroupFold<T, K, V>(xs: seq<T>, key: T -> Option<K>, init: V, step: (V, T) -> V)
    ensures Tally(xs, key, init, step) == Summarize(GroupBy(xs, key), init, step)
    decreases |xs|
  {
    if |xs| == 0 {
      assert Dedup(KeyList(xs, key)) == [];
    } else {
      var p := xs[..|xs| - 1];
      var x := xs[|xs| - 1];
      assert p + [x] == xs;
      TallyIsGroupFold(p, key, init, step);
      match key(x)
      case None =>
        assert KeyList(xs, key) == KeyList(p, key);
        forall k ensures Members(xs, key, k) == Members(p, key, k) {
          MembersSnoc(p, x, key, k);
        }
        assert GroupBy(xs, key) == GroupBy(p, key);
      case Some(k) =>
        BumpGroupsSnoc(p, x, k, key, init, step);
    }
  }

  /** What a caller of the fold relies on: distinct keys in first-seen order,
      and under each key the fold of exactly the records carrying it (never
      an empty set of records). */
  lemma TallyShape<T, K, V>(xs: seq<T>, key: T -> Option<K>, init: V, step: (V, T) -> V)
    ensures Keys(Tally(xs, key, init, step)) == Dedup(KeyList(xs, key))
    ensures DistinctKeys(Tally(xs, key, init, step))
    ensures forall i :: 0 <= i < |Tally(xs, key, init, step)| ==>
      var e := Tally(xs, key, init, step)[i];
      |Members(xs, key, e.0)| > 0 && e.1 == Fold(Members(xs, key, e.0), init, step)
  {
    TallyIsGroupFold(xs, key, init, step);
    GroupByShape(xs, key);
  }

  // ---------------------------------------------------------------------------
  // The groups partition the keyed records

  /** Sum of `w` over the members of each key of `ks`. */
  function SumOver<T, K(==)>(ks: seq<K>, xs: seq<T>, key: T -> Option<K>, w: T -> real): real
  {
    if |ks| == 0 then 0.0 else Sum(Members(xs, key, ks[0]), w) + SumOver(ks[1..], xs, key, w)
  }

  lemma {:induction false} SumOverAppend<T, K>(ks: seq<K>, k: K, xs: seq<T>, key: T -> Option<K>, w: T -> real)
    ensures SumOver(ks + [k], xs, key, w) == SumOver(ks, xs, key, w) + Sum(Members(xs, key, k), w)
    decreases |ks|
  {
    if |ks| == 0 {
      assert SumOver([k][1..], xs, key, w) == 0.0;
    } else {
      assert (ks + [k])[1..] == ks[1..] + [k];
      SumOverAppend(ks[1..], k, xs, key, w);
    }
  }

  /** Adding one record with key `k` adds its weight once, under `k`, when
      `k` is among the distinct keys `ks`, and nothing otherwise. */
  lemma {:induction false} SumOverSnoc<T, K>(ks: seq<K>, xs: seq<T>, key: T -> Option<K>, w: T -> real)
    requires |xs| > 0
    requires forall i, j :: 0 <= i < j < |ks| ==> ks[i] != ks[j]
    ensures SumOver(ks, xs, key, w) == SumOver(ks, xs[..|xs| - 1], key, w)
      + (if key(xs[|xs| - 1]).Some? && key(xs[|xs| - 1]).value in ks then w(xs[|xs| - 1]) else 0.0)
    decreases |ks|
  {
    var p := xs[..|xs| - 1];
    var x := xs[|xs| - 1];
    if |ks| > 0 {
      SumOverSnoc(ks[1..], xs, key, w);
      var m := Members(xs, key, ks[0]);
      if key(x) == Some(ks[0]) {
        assert m[..|m| - 1] == Members(p, key, ks[0]);
        assert key(x).value !in ks[1..];
      }
    }
  }

  lemma SumSnoc<T>(s: seq<T>, x: T, w: T -> real)
    ensures Sum(s + [x], w) == Sum(s, w) + w(x)
  {
    assert (s + [x])[..|s|] == s;
  }

  /** A record with a key not seen before opens a group of its own. */
  lemma NewKeySum<T, K>(p: seq<T>, x: T, k: K, key: T -> Option<K>, w: T -> real)
    requires key(x) == Some(k) && k !in KeyList(p, key)
    ensures SumOver(Dedup(KeyList(p, key)) + [k], p + [x], key, w)
         == SumOver(Dedup(KeyList(p, key)), p, key, w) + w(x)
  {
    var xs := p + [x];
    assert xs[..|xs| - 1] == p;
    var d := Dedup(KeyList(p, key));
    DedupDistinct(KeyList(p, key));
    DedupMembership(KeyList(p, key));
    SumOverAppend(d, k, xs, key, w);
    SumOverSnoc(d, xs, key, w);
    KeyListMembership(p, key, k);
    MembersSnoc(p, x, key, k);
    assert Members(p, key, k) == [];
    SumSnoc([], x, w);
  }

  /** The per-key sums add up to the sum over all keyed records: no keyed record
      is dropped or counted twice. */
  lemma {:induction false} GroupSumsPartition<T, K>(xs: seq<T>, key: T -> Option<K>, w: T -> real)
    ensures SumOver(Dedup(KeyList(xs, key)), xs, key, w) == Sum(Keyed(xs, key), w)
    decreases |xs|
  {
    if |xs| > 0 {
      var p := xs[..|xs| - 1];
      var x := xs[|xs| - 1];
      assert p + [x] == xs;
      GroupSumsPartition(p, key, w);
      match key(x)
      case None =>
        DedupDistinct(KeyList(xs, key));
        SumOverSnoc(Dedup(KeyList(xs, key)), xs, key, w);
      case Some(k) =>
        DedupSnoc(KeyList(p, key), k);
        SumSnoc(Keyed(p, key), x, w);
        if k in KeyList(p, key) {
          DedupDistinct(KeyList(xs, key));
          DedupMembership(KeyList(p, key));
          SumOverSnoc(Dedup(KeyList(xs, key)), xs, key, w);
        } else {
          NewKeySum(p, x, k, key, w);
        }
    }
  }

  /** Sum of the constant 1: the length. */
  function One<T>(x: T): real { 1.0 }

  lemma {:induction false} SumOfOnes<T>(xs: seq<T>)
    ensures Sum(xs, One) == |xs| as real
    decreases |xs|
  {
    if |xs| > 0 {
      SumOfOnes(xs[..|xs| - 1]);
    }
  }

  /** Sums of values bounded by `lo` and `hi` are bounded by `lo` and `hi`
      times the length. */
  lemma {:induction false} SumBounds<T>(xs: seq<T>, w: T -> real, lo: real, hi: real)
    requires forall i :: 0 <= i < |xs| ==> lo <= w(xs[i]) <= hi
    ensures lo * |xs| as real <= Sum(xs, w) <= hi * |xs| as real
    decreases |xs|
  {
    if |xs| > 0 {
      SumBounds(xs[..|xs| - 1], w, lo, hi);
      assert w(xs[|xs| - 1]) <= hi;
    }
  }

  /** Reading a key of a list with distinct keys finds its entry; a key that
      is not there reads as absent (`undefined`). */
  lemma {:induction false} LookupFinds<K, V>(l: seq<(K, V)>, k: K)
    requires DistinctKeys(l)
    ensures forall i :: 0 <= i < |l| && l[i].0 == k ==> Lookup(l, k) == Some(l[i].1)
    ensures k !in Keys(l) ==> Lookup(l, k) == None
    decreases |l|
  {
    if |l| > 0 {
      assert DistinctKeys(l[1..]) by {
        forall i, j | 0 <= i < j < |l[1..]| ensures l[1..][i].0 != l[1..][j].0 {
          assert l[1..][i] == l[i + 1] && l[1..][j] == l[j + 1];
        }
      }
      LookupFinds(l[1..], k);
      assert Keys(l) == [l[0].0] + Keys(l[1..]);
      forall i | 1 <= i < |l| && l[i].0 == k ensures Lookup(l, k) == Some(l[i].1) {
        assert l[1..][i - 1] == l[i];
      }
    }
  }

  lemma {:induction false} DedupLength<K>(ks: seq<K>)
    ensures |Dedup(ks)| <= |ks|
    decreases |ks|
  {
    if |ks| > 0 {
      DedupLength(Without(ks[1..], ks[0]));
    }
  }

  lemma {:induction false} KeyListLength<T, K>(xs: seq<T>, key: T -> Option<K>)
    ensures |KeyList(xs, key)| <= |xs|
    decreases |xs|
  {
    if |xs| > 0 {
      KeyListLength(xs[..|xs| - 1], key);
    }
  }

  /** A group's members are records of the input. */
  lemma {:induction false} MembersAreFrom<T, K>(xs: seq<T>, key: T -> Option<K>, k: K)
    ensures forall i :: 0 <= i < |Members(xs, key, k)| ==> Members(xs, key, k)[i] in xs
    decreases |xs|
  {
    if |xs| > 0 {
      MembersAreFrom(xs[..|xs| - 1], key, k);
      var m := Members(xs[..|xs| - 1], key, k);
      forall i | 0 <= i < |m| ensures m[i] in xs {
        assert m[i] in xs[..|xs| - 1];
      }
    }
  }

  lemma {:induction false} MembersLength<T, K>(xs: seq<T>, key: T -> Option<K>, k: K)
    ensures |Members(xs, key, k)| <= |xs|
    decreases |xs|
  {
    if |xs| > 0 {
      MembersLength(xs[..|xs| - 1], key, k);
    }
  }

  /** A key function that never answers None keeps every record. */
  lemma {:induction false} KeyedEverything<T, K>(xs: seq<T>, key: T -> Option<K>)
    requires forall x :: key(x).Some?
    ensures Keyed(xs, key) == xs
    decreases |xs|
  {
    if |xs| > 0 {
      KeyedEverything(xs[..|xs| - 1], key);
      assert xs[..|xs| - 1] + [xs[|xs| - 1]] == xs;
    }
  }
}
