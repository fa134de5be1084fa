/** Facts about sequences used to state order-preservation of filters. */
module Sequences {

  /** `a` is obtained from `b` by deleting elements, keeping the order. */
  ghost predicate Subsequence<T>(a: seq<T>, b: seq<T>)
    decreases |b|
  {
    if a == [] then true
    else if b == [] then false
    else if a[0] == b[0] then Subsequence(a[1..], b[1..])
    else Subsequence(a, b[1..])
  }

  /** No element occurs twice. */
  predicate Distinct<T(==)>(s: seq<T>)
  {
    forall i, j :: 0 <= i < j < |s| ==> s[i] != s[j]
  }

  /** `s.slice(0, n)` / `s.substring(0, n)` for a non-negative `n`. */
  function Take<T>(s: seq<T>, n: nat): (r: seq<T>)
    ensures |r| == if |s| < n then |s| else n
    ensures r <= s
  {
    if |s| <= n then s else s[..n]
  }

  /** Cutting a concatenation inside its first part. */
  lemma ConcatSlices<T>(a: seq<T>, b: seq<T>, n: nat)
    requires n <= |a|
    ensures (a + b)[..n] == a[..n] && (a + b)[n..] == a[n..] + b
  {
  }

  /** A prefix of a sequence without repeats has none either, and holds only its elements. */
  lemma TakeDistinct<T>(s: seq<T>, n: nat)
    requires Distinct(s)
    ensures Distinct(Take(s, n))
    ensures forall x :: x in Take(s, n) ==> x in s
    ensures |s| <= n ==> Take(s, n) == s
  {
    var r := Take(s, n);
    assert forall k :: 0 <= k < |r| ==> r[k] == s[k];
  }

  /** Appending an element not yet present keeps a sequence free of repeats. */
  lemma AppendFresh<T>(s: seq<T>, v: T)
    requires Distinct(s) && v !in s
    ensures Distinct(s + [v])
  {
    var t := s + [v];
    forall i, j | 0 <= i < j < |t| ensures t[i] != t[j] {
      if j < |s| {
        assert t[i] == s[i] && t[j] == s[j];
      } else {
        assert t[i] == s[i];
      }
    }
  }

  lemma {:induction false} SubsequenceRefl<T>(a: seq<T>)
    ensures Subsequence(a, a)
    decreases |a|
  {
    if a != [] {
      SubsequenceRefl(a[1..]);
    }
  }

  /** Keeping the head of both sides preserves the relation. */
  lemma SubsequenceCons<T>(x: T, a: seq<T>, b: seq<T>)
    requires Subsequence(a, b)
    ensures Subsequence([x] + a, [x] + b)
  {
    assert ([x] + a)[1..] == a;
    assert ([x] + b)[1..] == b;
  }

  /** Dropping the head of the longer side preserves the relation. */
  lemma SubsequenceSkip<T>(x: T, a: seq<T>, b: seq<T>)
    requires Subsequence(a, b)
    ensures Subsequence(a, [x] + b)
    decreases |b| + 1, 0
  {
    assert ([x] + b)[1..] == b;
    if a != [] && a[0] == x {
      SubsequenceDropHead(a, b);
    }
  }

  lemma {:induction false} SubsequenceDropHead<T>(a: seq<T>, b: seq<T>)
    requires a != [] && Subsequence(a, b)
    ensures Subsequence(a[1..], b)
    decreases |b|, 1
  {
    if b == [] {
    } else if a[0] == b[0] {
      SubsequenceSkip(b[0], a[1..], b[1..]);
      assert b == [b[0]] + b[1..];
    } else {
      SubsequenceDropHead(a, b[1..]);
      SubsequenceSkip(b[0], a[1..], b[1..]);
      assert b == [b[0]] + b[1..];
    }
  }

  /** Every element of a subsequence is an element of the whole. */
  lemma {:induction false} SubsequenceMembers<T>(a: seq<T>, b: seq<T>)
    requires Subsequence(a, b)
    ensures forall x :: x in a ==> x in b
    decreases |b|
  {
    if a == [] {
    } else if b == [] {
    } else if a[0] == b[0] {
      SubsequenceMembers(a[1..], b[1..]);
      assert a == [a[0]] + a[1..];
    } else {
      SubsequenceMembers(a, b[1..]);
    }
  }

  /** Every element other than `v`, in order. */
  function Remove<T(==,!new)>(s: seq<T>, v: T): (r: seq<T>)
    ensures forall x :: x in r <==> x in s && x != v
    ensures Subsequence(r, s)
    ensures v !in s ==> r == s
  {
    if s == [] then []
    else
      var rest := Remove(s[1..], v);
      assert s == [s[0]] + s[1..];
      if s[0] != v then
        SubsequenceCons(s[0], rest, s[1..]);
        [s[0]] + rest
      else
        SubsequenceSkip(s[0], rest, s[1..]);
        rest
  }

  /** Removing distributes over concatenation, so every other element keeps its multiplicity and order. */
  lemma {:induction false} RemoveConcat<T(!new)>(a: seq<T>, b: seq<T>, v: T)
    ensures Remove(a + b, v) == Remove(a, v) + Remove(b, v)
    decreases |a|
  {
    if a == [] {
      assert a + b == b;
    } else {
      assert (a + b)[0] == a[0] && (a + b)[1..] == a[1..] + b;
      RemoveConcat(a[1..], b, v);
    }
  }

  /** Removing what was just appended (and was not there before) restores the sequence. */
  lemma {:induction false} RemoveAppended<T(!new)>(s: seq<T>, v: T)
    requires v !in s
    ensures Remove(s + [v], v) == s
    decreases |s|
  {
    if s == [] {
      assert [] + [v] == [v];
      assert [v][1..] == [];
    } else {
      assert (s + [v])[1..] == s[1..] + [v];
      RemoveAppended(s[1..], v);
      assert s == [s[0]] + s[1..];
    }
  }

  /** Removal keeps a sequence free of duplicates. */
  lemma {:induction false} RemoveDistinct<T(!new)>(s: seq<T>, v: T)
    requires Distinct(s)
    ensures Distinct(Remove(s, v))
    decreases |s|
  {
    if s != [] {
      assert Distinct(s[1..]);
      RemoveDistinct(s[1..], v);
      assert s[0] !in s[1..];
    }
  }

  /**
   * `Array.from(new Set(s))`: each element once, at the place of its first
   * occurrence.
   */
  function Dedupe<T(==,!new)>(s: seq<T>): (r: seq<T>)
    ensures Distinct(r)
    ensures forall x :: x in r <==> x in s
    ensures |r| <= |s|
    decreases |s|
  {
    if s == [] then []
    else
      var init := Dedupe(s[..|s| - 1]);
      var last := s[|s| - 1];
      assert s == s[..|s| - 1] + [last];
      if last in init then init else init + [last]
  }

  /**
   * The first-occurrence order: deduplicating a prefix gives a prefix of
   * the deduplicated whole.
   */
  lemma {:induction false} DedupePrefix<T(!new)>(s: seq<T>, k: nat)
    requires k <= |s|
    ensures Dedupe(s[..k]) <= Dedupe(s)
    decreases |s|
  {
    if k == |s| {
      assert s[..k] == s;
    } else {
      var init := s[..|s| - 1];
      assert init[..k] == s[..k];
      DedupePrefix(init, k);
    }
  }
  /** `s.indexOf(x)` for an element that occurs: the position of its first occurrence. */
  function FirstIndex<T(==)>(s: seq<T>, x: T): (r: nat)
    requires x in s
    ensures r < |s| && s[r] == x
    ensures forall j :: 0 <= j < r ==> s[j] != x
  {
    if s[0] == x then 0 else 1 + FirstIndex(s[1..], x)
  }

  /**
   * First-occurrence order: an element of `s` sits in the deduplicated
   * sequence at the number of distinct elements before its first occurrence.
   */
  lemma DedupePosition<T(!new)>(s: seq<T>, w: T)
    requires w in s
    ensures var p := |Dedupe(s[..FirstIndex(s, w)])|;
      p < |Dedupe(s)| && Dedupe(s)[p] == w
  {
    var f := FirstIndex(s, w);
    var before := Dedupe(s[..f]);
    assert s[..f + 1][..f] == s[..f] && s[..f + 1][f] == w;
    assert w !in s[..f];
    assert Dedupe(s[..f + 1]) == before + [w];
    DedupePrefix(s, f + 1);
  }

  /** The first `n` distinct elements: an element is kept, at its dedupe position, exactly when that position is below `n`. */
  lemma TakeDedupePosition<T(!new)>(s: seq<T>, n: nat, w: T)
    requires w in s
    ensures var p := |Dedupe(s[..FirstIndex(s, w)])|;
      && (p < n ==> p < |Take(Dedupe(s), n)| && Take(Dedupe(s), n)[p] == w)
      && (n <= p ==> w !in Take(Dedupe(s), n))
  {
    var d := Dedupe(s);
    var p := |Dedupe(s[..FirstIndex(s, w)])|;
    DedupePosition(s, w);
    assert forall q :: 0 <= q < |Take(d, n)| ==> Take(d, n)[q] == d[q];
  }
}
