/** The list transformations the application writes with Array.prototype
    methods: `filter`, `reduce` to a sum, and `map` that rewrites the rows
    selected by a key. Sums and filters are defined as left folds, in the
    order `reduce` and `filter` visit the rows. */
module Lists {

  // ---------------------------------------------------------------------
  // filter

  /** Array.prototype.filter: the elements satisfying `p`, in their original order. */
  function Filter<T>(s: seq<T>, p: T -> bool): (r: seq<T>)
    ensures |r| <= |s|
    ensures forall i :: 0 <= i < |r| ==> r[i] in s && p(r[i])
    ensures forall i :: 0 <= i < |s| && p(s[i]) ==> s[i] in r
    ensures forall i :: 0 <= i < |s| && p(s[i]) ==> multiset(r)[s[i]] == multiset(s)[s[i]]
  {
    if s == [] then []
    else
      var init, last := s[..|s| - 1], s[|s| - 1];
      var kept := Filter(init, p);
      assert s == init + [last];
      assert last !in init ==> multiset(kept)[last] == 0;
      if p(last) then kept + [last] else kept
  }

  /** `idx` lists, in strictly increasing order, positions of `b` holding the elements of `a`. */
  ghost predicate Embeds<T>(idx: seq<nat>, a: seq<T>, b: seq<T>)
  {
    && |idx| == |a|
    && (forall i :: 0 <= i < |idx| ==> idx[i] < |b| && b[idx[i]] == a[i])
    && (forall i, j :: 0 <= i < j < |idx| ==> idx[i] < idx[j])
  }

  /** `a` is `b` with some elements left out and the rest kept in their relative order. */
  ghost predicate IsSubsequence<T>(a: seq<T>, b: seq<T>)
  {
    exists idx :: Embeds(idx, a, b)
  }

  /** The positions `Filter` keeps, which exhibit its result as a subsequence. */
  lemma {:induction false} FilterPositions<T>(s: seq<T>, p: T -> bool) returns (idx: seq<nat>)
    ensures Embeds(idx, Filter(s, p), s)
    ensures forall i :: 0 <= i < |idx| ==> p(s[idx[i]])
  {
    if s == [] {
      idx := [];
    } else {
      var init, last := s[..|s| - 1], s[|s| - 1];
      assert s == init + [last];
      var k := FilterPositions(init, p);
      if p(last) {
        idx := k + [|init|];
        EmbedsSnocBoth(k, Filter(init, p), init, last);
      } else {
        idx := k;
        EmbedsSnocRight(k, Filter(init, p), init, last);
      }
    }
  }

  /** An embedding extends by one element appended to both lists. */
  lemma EmbedsSnocBoth<T>(idx: seq<nat>, a: seq<T>, b: seq<T>, x: T)
    requires Embeds(idx, a, b)
    ensures Embeds(idx + [|b|], a + [x], b + [x])
  {
  }

  /** An embedding survives an element appended to the larger list. */
  lemma EmbedsSnocRight<T>(idx: seq<nat>, a: seq<T>, b: seq<T>, x: T)
    requires Embeds(idx, a, b)
    ensures Embeds(idx, a, b + [x])
  {
  }

  /** A filtered list is a subsequence of the list it was filtered from. */
  lemma FilterIsSubsequence<T>(s: seq<T>, p: T -> bool)
    ensures IsSubsequence(Filter(s, p), s)
  {
    var idx := FilterPositions(s, p);
  }

  /** Filtering a list whose every element passes changes nothing. */
  lemma {:induction false} FilterKeepsAll<T>(s: seq<T>, p: T -> bool)
    requires forall x :: x in s ==> p(x)
    ensures Filter(s, p) == s
  {
    if s != [] {
      FilterKeepsAll(s[..|s| - 1], p);
      assert s[..|s| - 1] + [s[|s| - 1]] == s;
    }
  }

  /** Filtering twice with the same predicate is filtering once. */
  lemma FilterIdempotent<T>(s: seq<T>, p: T -> bool)
    ensures Filter(Filter(s, p), p) == Filter(s, p)
  {
    FilterKeepsAll(Filter(s, p), p);
  }

  /** Filtering distributes over concatenation. */
  lemma {:induction false} FilterAppend<T>(a: seq<T>, b: seq<T>, p: T -> bool)
    ensures Filter(a + b, p) == Filter(a, p) + Filter(b, p)
    decreases |b|
  {
    if b != [] {
      var b' := b[..|b| - 1];
      FilterAppend(a, b', p);
      assert (a + b)[..|a + b| - 1] == a + b';
    } else {
      assert a + b == a;
    }
  }

  /** `filter(p).length`. */
  function Count<T>(s: seq<T>, p: T -> bool): nat
  {
    |Filter(s, p)|
  }

  /** Appending one element raises the count by one exactly when it passes. */
  lemma CountSnoc<T>(s: seq<T>, x: T, p: T -> bool)
    ensures Count(s + [x], p) == Count(s, p) + (if p(x) then 1 else 0)
  {
    assert (s + [x])[..|s|] == s;
  }

  /** Two predicates that no element satisfies together count at most the length between them. */
  lemma {:induction false} CountDisjoint<T>(s: seq<T>, p: T -> bool, q: T -> bool)
    requires forall x :: x in s ==> !(p(x) && q(x))
    ensures Count(s, p) + Count(s, q) <= |s|
  {
    if s != [] {
      var init := s[..|s| - 1];
      CountDisjoint(init, p, q);
      CountSnoc(init, s[|s| - 1], p);
      CountSnoc(init, s[|s| - 1], q);
      assert init + [s[|s| - 1]] == s;
    }
  }

  // ---------------------------------------------------------------------
  // reduce((sum, x) => sum + f(x), 0)

  /** The sum of `f` over the elements, folded from the left starting at 0. */
  function SumOf<T>(s: seq<T>, f: T -> int): int
  {
    if s == [] then 0 else SumOf(s[..|s| - 1], f) + f(s[|s| - 1])
  }

  /** The sum over a concatenation is the sum of the sums. */
  lemma {:induction false} SumOfAppend<T>(a: seq<T>, b: seq<T>, f: T -> int)
    ensures SumOf(a + b, f) == SumOf(a, f) + SumOf(b, f)
    decreases |b|
  {
    if b != [] {
      var b' := b[..|b| - 1];
      SumOfAppend(a, b', f);
      assert (a + b)[..|a + b| - 1] == a + b';
    } else {
      assert a + b == a;
    }
  }

  /** A sum does not depend on the order of the elements. */
  lemma {:induction false} SumOfPermutation<T>(a: seq<T>, b: seq<T>, f: T -> int)
    requires multiset(a) == multiset(b)
    ensures SumOf(a, f) == SumOf(b, f)
    decreases |a|
  {
    if a != [] {
      var x := a[|a| - 1];
      var a' := a[..|a| - 1];
      assert a == a' + [x];
      assert x in multiset(b);
      var j :| 0 <= j < |b| && b[j] == x;
      var b' := b[..j] + b[j + 1..];
      assert b == b[..j] + [x] + b[j + 1..];
      assert multiset(b) == multiset(b[..j]) + multiset([x]) + multiset(b[j + 1..]);
      assert multiset(b') == multiset(b[..j]) + multiset(b[j + 1..]);
      assert multiset(a) == multiset(a') + multiset([x]);
      assert multiset(a') == multiset(a) - multiset([x]);
      assert multiset(b') == multiset(b) - multiset([x]);
      SumOfPermutation(a', b', f);
      SumOfAppend(b[..j] + [x], b[j + 1..], f);
      SumOfAppend(b[..j], [x], f);
      SumOfAppend(b[..j], b[j + 1..], f);
    } else {
      assert b == [];
    }
  }

  /** A sum of non-negative terms is non-negative. */
  lemma {:induction false} SumOfNonNegative<T>(s: seq<T>, f: T -> int)
    requires forall x :: x in s ==> f(x) >= 0
    ensures SumOf(s, f) >= 0
  {
    if s != [] {
      SumOfNonNegative(s[..|s| - 1], f);
    }
  }

  /** The 0/1 indicator of a predicate. */
  function Indicator<T>(p: T -> bool): T -> int
  {
    x => if p(x) then 1 else 0
  }

  /** A count is the sum of the predicate's indicator. */
  lemma {:induction false} CountIsSum<T>(s: seq<T>, p: T -> bool)
    ensures Count(s, p) == SumOf(s, Indicator(p))
  {
    if s != [] {
      CountIsSum(s[..|s| - 1], p);
    }
  }

  /** A count does not depend on the order of the elements. */
  lemma CountPermutation<T>(a: seq<T>, b: seq<T>, p: T -> bool)
    requires multiset(a) == multiset(b)
    ensures Count(a, p) == Count(b, p)
  {
    CountIsSum(a, p);
    CountIsSum(b, p);
    SumOfPermutation(a, b, Indicator(p));
  }

  // ---------------------------------------------------------------------
  // map(x => key(x) === id ? f(x) : x) and filter(x => key(x) !== id)

  /** Rewrites with `f` every element whose key is `id`; the others stay as they are. */
  function UpdateWhereKey<T>(s: seq<T>, key: T -> string, id: string, f: T -> T): (r: seq<T>)
  {
    seq(|s|, i requires 0 <= i < |s| => if key(s[i]) == id then f(s[i]) else s[i])
  }

  /** The rows selected by `id` are rewritten, every other row is kept in place. */
  lemma UpdateWhereKeyShape<T>(s: seq<T>, key: T -> string, id: string, f: T -> T)
    ensures |UpdateWhereKey(s, key, id, f)| == |s|
    ensures forall i :: 0 <= i < |s| && key(s[i]) != id ==> UpdateWhereKey(s, key, id, f)[i] == s[i]
    ensures forall i :: 0 <= i < |s| && key(s[i]) == id ==> UpdateWhereKey(s, key, id, f)[i] == f(s[i])
  {
  }

  /** With an idempotent rewrite, updating twice is updating once. */
  lemma UpdateWhereKeyIdempotent<T>(s: seq<T>, key: T -> string, id: string, f: T -> T)
    requires forall x :: f(f(x)) == f(x)
    ensures UpdateWhereKey(UpdateWhereKey(s, key, id, f), key, id, f) == UpdateWhereKey(s, key, id, f)
  {
  }

  /** An id matching no row leaves the list as it is. */
  lemma UpdateAbsentKey<T>(s: seq<T>, key: T -> string, id: string, f: T -> T)
    requires forall x :: x in s ==> key(x) != id
    ensures UpdateWhereKey(s, key, id, f) == s
  {
  }

  /** The predicate "the key is not `id`". */
  function KeyIsNot<T>(key: T -> string, id: string): T -> bool
  {
    x => key(x) != id
  }

  /** `filter(x => key(x) !== id)`. */
  function RemoveKey<T>(s: seq<T>, key: T -> string, id: string): (r: seq<T>)
    ensures forall i :: 0 <= i < |r| ==> key(r[i]) != id
    ensures forall i :: 0 <= i < |s| && key(s[i]) != id ==> s[i] in r
  {
    Filter(s, KeyIsNot(key, id))
  }

  /** Removing by key keeps the other rows in their relative order, removing
      an absent key changes nothing, and removing twice is removing once. */
  lemma RemoveKeyProperties<T>(s: seq<T>, key: T -> string, id: string)
    ensures IsSubsequence(RemoveKey(s, key, id), s)
    ensures (forall x :: x in s ==> key(x) != id) ==> RemoveKey(s, key, id) == s
    ensures RemoveKey(RemoveKey(s, key, id), key, id) == RemoveKey(s, key, id)
  {
    FilterIsSubsequence(s, KeyIsNot(key, id));
    if forall x :: x in s ==> key(x) != id {
      FilterKeepsAll(s, KeyIsNot(key, id));
    }
    FilterIdempotent(s, KeyIsNot(key, id));
  }

  // ---------------------------------------------------------------------
  // filter((_, i) => i !== index)

  /** Drops the element at position `index`; an index outside the list drops nothing. */
  function RemovePosition<T>(s: seq<T>, index: int): (r: seq<T>)
    ensures 0 <= index < |s| ==> r == s[..index] + s[index + 1..]
    ensures !(0 <= index < |s|) ==> r == s
  {
    if s == [] then []
    else
      var init := s[..|s| - 1];
      var kept := RemovePosition(init, index);
      if index == |s| - 1 then kept
      else
        assert 0 <= index < |init| ==> init[..index] + init[index + 1..] + [s[|s| - 1]] == s[..index] + s[index + 1..];
        kept + [s[|s| - 1]]
  }

  /** Dropping one position takes exactly that element's term off the sum. */
  lemma SumOfRemovePosition<T>(s: seq<T>, index: int, f: T -> int)
    requires 0 <= index < |s|
    ensures SumOf(RemovePosition(s, index), f) == SumOf(s, f) - f(s[index])
  {
    var front, x, back := s[..index], s[index], s[index + 1..];
    assert s == front + [x] + back;
    assert SumOf([x], f) == f(x) by {
      assert [x][..0] == [];
    }
    SumOfAppend(front + [x], back, f);
    SumOfAppend(front, [x], f);
    SumOfAppend(front, back, f);
  }
}
