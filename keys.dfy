/**
 * Sorted key lists.  Every list the core shows or offers is built the same
 * way: an `append` loop collects the keys of a map in Go's unspecified map
 * order, then `sort.Strings` sorts the slice in place.
 *
 * `sort.Strings` orders strings by their UTF-8 bytes.  UTF-8 preserves the
 * order of code points and a Dafny `char` is a Unicode scalar value, so the
 * lexicographic order on characters below is that same order.
 */
module Keys {

  /** Go's `a < b` on strings: lexicographic, a proper prefix first. */
  predicate Less(a: string, b: string)
    ensures |a| < |b| && a == b[..|a|] ==> Less(a, b)
    ensures forall i :: 0 <= i < |a| && i < |b| && a[..i] == b[..i] && a[i] != b[i] ==> (Less(a, b) <==> a[i] < b[i])
    decreases |a|
  {
    if |a| == 0 then |b| > 0
    else if |b| == 0 then false
    else if a[0] != b[0] then a[0] < b[0]
    else
      assert forall i :: 0 < i <= |a| && i <= |b| && a[..i] == b[..i] ==> a[1..][..i - 1] == b[1..][..i - 1];
      Less(a[1..], b[1..])
  }

  lemma {:induction false} LessIrreflexive(a: string)
    ensures !Less(a, a)
    decreases |a|
  {
    if |a| > 0 {
      LessIrreflexive(a[1..]);
    }
  }

  lemma {:induction false} LessAsymmetric(a: string, b: string)
    requires Less(a, b)
    ensures !Less(b, a)
    decreases |a|
  {
    if |a| > 0 && |b| > 0 && a[0] == b[0] {
      LessAsymmetric(a[1..], b[1..]);
    }
  }

  lemma {:induction false} LessTransitive(a: string, b: string, c: string)
    requires Less(a, b) && Less(b, c)
    ensures Less(a, c)
    decreases |a|
  {
    if |a| > 0 && |b| > 0 && |c| > 0 && a[0] == b[0] && b[0] == c[0] {
      LessTransitive(a[1..], b[1..], c[1..]);
    }
  }

  lemma {:induction false} LessTotal(a: string, b: string)
    requires a != b
    ensures Less(a, b) || Less(b, a)
    decreases |a|
  {
    if |a| > 0 && |b| > 0 && a[0] == b[0] {
      assert a == [a[0]] + a[1..] && b == [b[0]] + b[1..];
      LessTotal(a[1..], b[1..]);
    }
  }

  /** `Less` is a strict total order on strings. */
  lemma LessIsStrictTotalOrder()
    ensures forall a: string :: !Less(a, a)
    ensures forall a: string, b: string :: Less(a, b) ==> !Less(b, a)
    ensures forall a: string, b: string, c: string :: Less(a, b) && Less(b, c) ==> Less(a, c)
    ensures forall a: string, b: string :: a != b ==> Less(a, b) || Less(b, a)
  {
    forall a: string ensures !Less(a, a) {
      LessIrreflexive(a);
    }
    forall a: string, b: string | Less(a, b) ensures !Less(b, a) {
      LessAsymmetric(a, b);
    }
    forall a: string, b: string, c: string | Less(a, b) && Less(b, c) ensures Less(a, c) {
      LessTransitive(a, b, c);
    }
    forall a: string, b: string | a != b ensures Less(a, b) || Less(b, a) {
      LessTotal(a, b);
    }
  }

  predicate StrictlySorted(r: seq<string>) {
    forall i, j :: 0 <= i < j < |r| ==> Less(r[i], r[j])
  }

  predicate Distinct(r: seq<string>) {
    forall i, j :: 0 <= i < j < |r| ==> r[i] != r[j]
  }

  /** `m` comes before every other element of `s`. */
  predicate IsLeast(m: string, s: set<string>) {
    forall y :: y in s && y != m ==> Less(m, y)
  }

  lemma {:induction false} LeastExists(s: set<string>)
    requires s != {}
    ensures exists m :: m in s && IsLeast(m, s)
    decreases s
  {
    LessIsStrictTotalOrder();
    var x :| x in s;
    if s != {x} {
      LeastExists(s - {x});
      var m :| m in s - {x} && IsLeast(m, s - {x});
      if Less(x, m) {
        assert IsLeast(x, s);
      } else {
        assert IsLeast(m, s);
      }
    } else {
      assert IsLeast(x, s);
    }
  }

  /** Prepending an element below every member keeps a list strictly sorted. */
  lemma SortedCons(x: string, t: seq<string>)
    requires StrictlySorted(t)
    requires forall k :: k in t ==> Less(x, k)
    ensures StrictlySorted([x] + t)
  {
    var r := [x] + t;
    forall i, j | 0 <= i < j < |r| ensures Less(r[i], r[j]) {
      if i == 0 {
        assert r[j] == t[j - 1];
      } else {
        assert r[i] == t[i - 1] && r[j] == t[j - 1];
      }
    }
  }

  /** A strictly sorted list holds its first element once. */
  lemma TailMembers(a: seq<string>)
    requires StrictlySorted(a) && a != []
    ensures forall k :: k in a[1..] <==> k in a && k != a[0]
  {
    LessIsStrictTotalOrder();
    forall k | k in a[1..] ensures k != a[0] {
      var j :| 0 <= j < |a[1..]| && a[1..][j] == k;
      assert Less(a[0], a[j + 1]);
    }
    forall k | k in a && k != a[0] ensures k in a[1..] {
      var j :| 0 <= j < |a| && a[j] == k;
      assert a[1..][j - 1] == k;
    }
  }

  /** The sorted list of a key set: strictly ascending, holding exactly the keys. */
  function SortedKeys(s: set<string>): (r: seq<string>)
    ensures |r| == |s|
    decreases s
  {
    if s == {} then []
    else
      LeastExists(s);
      LessIsStrictTotalOrder();
      var m :| m in s && IsLeast(m, s);
      [m] + SortedKeys(s - {m})
  }

  /** The sorted key list is strictly increasing and holds exactly the keys of the set. */
  lemma {:induction false} SortedKeysSpec(s: set<string>)
    ensures StrictlySorted(SortedKeys(s))
    ensures forall k :: k in SortedKeys(s) <==> k in s
    decreases s
  {
    if s != {} {
      LeastExists(s);
      LessIsStrictTotalOrder();
      var m :| m in s && IsLeast(m, s);
      assert SortedKeys(s) == [m] + SortedKeys(s - {m});
      SortedKeysSpec(s - {m});
      SortedCons(m, SortedKeys(s - {m}));
    }
  }


  /** The first element of a strictly sorted list comes before all its other members. */
  lemma FirstIsLeast(a: seq<string>)
    requires StrictlySorted(a) && a != []
    ensures forall k :: k in a && k != a[0] ==> Less(a[0], k)
  {
    forall k | k in a && k != a[0] ensures Less(a[0], k) {
      var j :| 0 <= j < |a| && a[j] == k;
    }
  }

  /** Two strictly sorted lists with the same members are the same list. */
  lemma {:induction false} StrictlySortedUnique(a: seq<string>, b: seq<string>)
    requires StrictlySorted(a) && StrictlySorted(b)
    requires forall k :: k in a <==> k in b
    ensures a == b
    decreases |a|
  {
    assert a != [] ==> a[0] in b;
    assert b != [] ==> b[0] in a;
    if a != [] {
      LessIsStrictTotalOrder();
      FirstIsLeast(a);
      FirstIsLeast(b);
      assert a[0] == b[0];
      TailMembers(a);
      TailMembers(b);
      StrictlySortedUnique(a[1..], b[1..]);
      assert a == [a[0]] + a[1..] && b == [b[0]] + b[1..];
    }
  }

  /** The sorted keys of a key set are the only strictly sorted list of those keys. */
  lemma SortedKeysCharacterized(r: seq<string>, s: set<string>)
    requires StrictlySorted(r)
    requires forall k :: k in r <==> k in s
    ensures r == SortedKeys(s)
  {
    SortedKeysSpec(s);
    StrictlySortedUnique(r, SortedKeys(s));
  }

  /** Place `x` in a strictly sorted list that does not hold it yet. */
  function InsertSorted(r: seq<string>, x: string): (q: seq<string>)
    requires StrictlySorted(r) && x !in r
    ensures StrictlySorted(q)
    ensures forall k :: k in q <==> k in r || k == x
    ensures |q| == |r| + 1
  {
    if r == [] || Less(x, r[0]) then
      LessIsStrictTotalOrder();
      SortedCons(x, r);
      [x] + r
    else
      LessIsStrictTotalOrder();
      TailMembers(r);
      var q' := InsertSorted(r[1..], x);
      SortedCons(r[0], q');
      [r[0]] + q'
  }

  /**
   * `sort.Strings` on a slice of keys, by insertion.  Keys of one map are
   * distinct, which is all the core ever sorts.
   */
  method SortKeys(a: seq<string>) returns (r: seq<string>)
    requires Distinct(a)
    ensures StrictlySorted(r)
    ensures forall k :: k in r <==> k in a
    ensures |r| == |a|
  {
    r := [];
    for i := 0 to |a|
      invariant StrictlySorted(r)
      invariant forall k :: k in r <==> k in a[..i]
      invariant |r| == i
    {
      assert a[i] !in a[..i];
      assert a[..i + 1] == a[..i] + [a[i]];
      r := InsertSorted(r, a[i]);
    }
    assert a[..|a|] == a;
  }

  /**
   * The `append` loop over a map followed by `sort.Strings`: whatever order
   * the map is ranged in, the result is the sorted list of its keys.
   */
  method CollectSortedKeys<V>(m: map<string, V>) returns (keys: seq<string>)
    ensures keys == SortedKeys(m.Keys)
    ensures StrictlySorted(keys) && forall k :: k in keys <==> k in m
  {
    var collected: seq<string> := [];
    var rest := m.Keys;
    while rest != {}
      invariant rest <= m.Keys
      invariant Distinct(collected)
      invariant forall k :: k in collected <==> k in m && k !in rest
      decreases rest
    {
      var k :| k in rest;
      collected := collected + [k];
      rest := rest - {k};
    }
    keys := SortKeys(collected);
    SortedKeysCharacterized(keys, m.Keys);
  }
}
