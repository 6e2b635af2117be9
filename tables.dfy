// Generic list and table operations: stable sorting, duplicate removal by key,
// `head(n)`, and the "sort by score, drop duplicate codes, take the top n"
// merge that several screeners use.

module Tables {

  /** `le(a, b)`: a may come before b. Sorting needs a total preorder. */
  ghost predicate TotalPreorder<T(!new)>(le: (T, T) -> bool)
  {
    (forall a, b :: le(a, b) || le(b, a)) &&
    (forall a, b, c :: le(a, b) && le(b, c) ==> le(a, c))
  }

  predicate SortedBy<T>(s: seq<T>, le: (T, T) -> bool)
  {
    forall i, j :: 0 <= i < j < |s| ==> le(s[i], s[j])
  }

  /** Inserts x before the first element it may precede. */
  function Insert<T>(x: T, s: seq<T>, le: (T, T) -> bool): seq<T>
  {
    if |s| == 0 then [x]
    else if le(x, s[0]) then [x] + s
    else [s[0]] + Insert(x, s[1..], le)
  }

  /** Stable insertion sort: equal elements keep their input order. */
  function SortBy<T>(s: seq<T>, le: (T, T) -> bool): seq<T>
  {
    if |s| == 0 then [] else Insert(s[0], SortBy(s[1..], le), le)
  }

  lemma {:induction false} InsertPerm<T>(x: T, s: seq<T>, le: (T, T) -> bool)
    ensures multiset(Insert(x, s, le)) == multiset(s) + multiset{x}
  {
    if |s| > 0 && !le(x, s[0]) {
      InsertPerm(x, s[1..], le);
      assert s == [s[0]] + s[1..];
    }
  }

  lemma {:induction false} InsertSorted<T(!new)>(x: T, s: seq<T>, le: (T, T) -> bool)
    requires TotalPreorder(le) && SortedBy(s, le)
    ensures SortedBy(Insert(x, s, le), le)
  {
    if |s| > 0 && !le(x, s[0]) {
      InsertSorted(x, s[1..], le);
      var r := Insert(x, s[1..], le);
      InsertPerm(x, s[1..], le);
      forall k | 0 <= k < |r|
        ensures le(s[0], r[k])
      {
        assert r[k] in multiset(r);
        if r[k] != x {
          assert r[k] in multiset(s[1..]);
          var j :| 0 <= j < |s[1..]| && s[1..][j] == r[k];
          assert s[j + 1] == r[k];
        }
      }
    }
  }

  /** The sorted list is ordered and is a permutation of the input. */
  lemma {:induction false} SortByCorrect<T(!new)>(s: seq<T>, le: (T, T) -> bool)
    requires TotalPreorder(le)
    ensures SortedBy(SortBy(s, le), le)
    ensures multiset(SortBy(s, le)) == multiset(s)
    ensures |SortBy(s, le)| == |s|
  {
    if |s| > 0 {
      SortByCorrect(s[1..], le);
      SortByStep(s, le);
    }
    assert |SortBy(s, le)| == |multiset(SortBy(s, le))|;
  }

  /** Inserting the head into the sorted tail keeps the list ordered and a permutation. */
  lemma SortByStep<T(!new)>(s: seq<T>, le: (T, T) -> bool)
    requires TotalPreorder(le) && |s| > 0
    requires SortedBy(SortBy(s[1..], le), le) && multiset(SortBy(s[1..], le)) == multiset(s[1..])
    ensures SortedBy(SortBy(s, le), le) && multiset(SortBy(s, le)) == multiset(s)
  {
    var t := SortBy(s[1..], le);
    assert SortBy(s, le) == Insert(s[0], t, le);
    InsertSorted(s[0], t, le);
    InsertPerm(s[0], t, le);
    assert multiset(s) == multiset(s[1..]) + multiset{s[0]} by {
      assert s == [s[0]] + s[1..];
    }
  }

  lemma SortByMembers<T(!new)>(s: seq<T>, le: (T, T) -> bool)
    requires TotalPreorder(le)
    ensures forall x :: x in SortBy(s, le) <==> x in s
  {
    SortByCorrect(s, le);
    forall x
      ensures x in SortBy(s, le) <==> x in s
    {
      assert x in SortBy(s, le) <==> x in multiset(SortBy(s, le));
      assert x in s <==> x in multiset(s);
    }
  }

  /** Two lists with the same members carry the same keys. */
  lemma SameMembersSameKeys<T>(a: seq<T>, b: seq<T>, key: T -> string)
    requires forall x :: x in a <==> x in b
    ensures Keys(a, key) == Keys(b, key)
  {
    forall k | k in Keys(a, key) ensures k in Keys(b, key) {
      var i :| 0 <= i < |a| && key(a[i]) == k;
      assert a[i] in b;
      var j :| 0 <= j < |b| && b[j] == a[i];
    }
    forall k | k in Keys(b, key) ensures k in Keys(a, key) {
      var i :| 0 <= i < |b| && key(b[i]) == k;
      assert b[i] in a;
      var j :| 0 <= j < |a| && a[j] == b[i];
    }
  }

  function Min(a: int, b: int): int { if a <= b then a else b }

  /** pandas `head(n)` / Python `[:n]`: the first min(n, |s|) elements. */
  function Take<T>(s: seq<T>, n: nat): (r: seq<T>)
    ensures |r| == Min(n, |s|)
    ensures r == s[..|r|]
  {
    if |s| <= n then s else s[..n]
  }

  lemma TakeSorted<T>(s: seq<T>, n: nat, le: (T, T) -> bool)
    requires SortedBy(s, le)
    ensures SortedBy(Take(s, n), le)
  {
  }

  /** Every element kept by `Take` on a sorted list may precede every dropped one. */
  lemma TakeIsTop<T>(s: seq<T>, n: nat, le: (T, T) -> bool)
    requires SortedBy(s, le)
    ensures forall i, j :: 0 <= i < |Take(s, n)| <= j < |s| ==> le(Take(s, n)[i], s[j])
  {
  }

  function Filter<T(!new)>(s: seq<T>, p: T -> bool): (r: seq<T>)
    ensures |r| <= |s|
    ensures forall x :: x in r <==> x in s && p(x)
  {
    if |s| == 0 then [] else (if p(s[0]) then [s[0]] else []) + Filter(s[1..], p)
  }

  function Map<T, U>(s: seq<T>, f: T -> U): (r: seq<U>)
    ensures |r| == |s| && forall i :: 0 <= i < |s| ==> r[i] == f(s[i])
  {
    if |s| == 0 then [] else [f(s[0])] + Map(s[1..], f)
  }

  /** Some element passes p exactly when the filtered list is not empty. */
  lemma FilterNonEmpty<T(!new)>(s: seq<T>, p: T -> bool)
    ensures (exists x :: x in s && p(x)) <==> |Filter(s, p)| > 0
  {
    if exists x :: x in s && p(x) {
      var x :| x in s && p(x);
      assert x in Filter(s, p);
    }
  }

  /** y is the image under f of some element of s that passes p. */
  ghost predicate ImageOfPassing<T(!new), U>(s: seq<T>, p: T -> bool, f: T -> U, y: U)
  {
    exists x :: x in s && p(x) && y == f(x)
  }

  /** The image of the elements passing p: every such element's image appears, and only those. */
  lemma MapFilterMembers<T(!new), U>(s: seq<T>, p: T -> bool, f: T -> U)
    ensures forall x :: x in s && p(x) ==> f(x) in Map(Filter(s, p), f)
    ensures forall i :: 0 <= i < |Map(Filter(s, p), f)| ==> ImageOfPassing(s, p, f, Map(Filter(s, p), f)[i])
  {
    forall x | x in s && p(x) ensures f(x) in Map(Filter(s, p), f) {
      var i :| 0 <= i < |Filter(s, p)| && Filter(s, p)[i] == x;
      assert Map(Filter(s, p), f)[i] == f(x);
    }
    forall i | 0 <= i < |Map(Filter(s, p), f)| ensures ImageOfPassing(s, p, f, Map(Filter(s, p), f)[i]) {
      var x := Filter(s, p)[i];
      assert x in Filter(s, p);
      assert x in s && p(x) && Map(Filter(s, p), f)[i] == f(x);
    }
  }

  /** Mapping distributes over concatenation. */
  lemma {:induction false} MapConcat<T, U>(a: seq<T>, b: seq<T>, f: T -> U)
    ensures Map(a + b, f) == Map(a, f) + Map(b, f)
  {
    if |a| > 0 {
      assert (a + b)[1..] == a[1..] + b;
      MapConcat(a[1..], b, f);
    } else {
      assert a + b == b;
    }
  }

  /** Mapping a prefix one item longer appends that item's image. */
  lemma MapSnoc<T, U>(s: seq<T>, i: nat, f: T -> U)
    requires i < |s|
    ensures Map(s[..i + 1], f) == Map(s[..i], f) + [f(s[i])]
  {
    assert s[..i + 1] == s[..i] + [s[i]];
    MapConcat(s[..i], [s[i]], f);
  }

  /** The set of keys a list carries. */
  function Keys<T>(s: seq<T>, key: T -> string): set<string>
  {
    set i | 0 <= i < |s| :: key(s[i])
  }

  predicate UniqueKeys<T>(s: seq<T>, key: T -> string)
  {
    forall i, j :: 0 <= i < j < |s| ==> key(s[i]) != key(s[j])
  }

  /** Keeps the first element of each key not in `seen`, in input order. */
  function DedupFrom<T>(s: seq<T>, key: T -> string, seen: set<string>): seq<T>
  {
    if |s| == 0 then []
    else if key(s[0]) in seen then DedupFrom(s[1..], key, seen)
    else [s[0]] + DedupFrom(s[1..], key, seen + {key(s[0])})
  }

  /** pandas `drop_duplicates(subset=key, keep='first')` */
  function DedupFirst<T>(s: seq<T>, key: T -> string): seq<T>
  {
    DedupFrom(s, key, {})
  }

  lemma {:induction false} DedupFromProps<T>(s: seq<T>, key: T -> string, seen: set<string>)
    ensures forall x :: x in DedupFrom(s, key, seen) ==> x in s && key(x) !in seen
    ensures UniqueKeys(DedupFrom(s, key, seen), key)
    ensures Keys(DedupFrom(s, key, seen), key) == Keys(s, key) - seen
    ensures |DedupFrom(s, key, seen)| <= |s|
  {
    if |s| > 0 {
      var rest := s[1..];
      if key(s[0]) in seen {
        DedupFromProps(rest, key, seen);
        KeysCons(s, key);
      } else {
        var seen' := seen + {key(s[0])};
        DedupFromProps(rest, key, seen');
        var r := DedupFrom(s, key, seen);
        assert r == [s[0]] + DedupFrom(rest, key, seen');
        KeysCons(s, key);
        KeysCons(r, key);
      }
    }
  }

  lemma KeysCons<T>(s: seq<T>, key: T -> string)
    requires |s| > 0
    ensures Keys(s, key) == {key(s[0])} + Keys(s[1..], key)
  {
    var a := Keys(s, key);
    var b := {key(s[0])} + Keys(s[1..], key);
    forall k | k in a ensures k in b {
      var i :| 0 <= i < |s| && key(s[i]) == k;
      if i > 0 { assert s[1..][i - 1] == s[i]; }
    }
    forall k | k in b ensures k in a {
      if k != key(s[0]) {
        var i :| 0 <= i < |s[1..]| && key(s[1..][i]) == k;
        assert s[i + 1] == s[1..][i];
      }
    }
  }

  /** De-duplication keeps unique keys and loses no key. */
  lemma DedupFirstProps<T>(s: seq<T>, key: T -> string)
    ensures UniqueKeys(DedupFirst(s, key), key)
    ensures Keys(DedupFirst(s, key), key) == Keys(s, key)
    ensures forall x :: x in DedupFirst(s, key) ==> x in s
  {
    DedupFromProps(s, key, {});
  }

  /** On a sorted list, the element kept for a key may precede every element with that key. */
  lemma {:induction false} DedupFromKeepsFirst<T(!new)>(s: seq<T>, key: T -> string, seen: set<string>, le: (T, T) -> bool)
    requires TotalPreorder(le) && SortedBy(s, le)
    ensures forall x, j :: x in DedupFrom(s, key, seen) && 0 <= j < |s| && key(s[j]) == key(x) ==> le(x, s[j])
  {
    if |s| > 0 {
      var rest := s[1..];
      var seen' := if key(s[0]) in seen then seen else seen + {key(s[0])};
      DedupFromKeepsFirst(rest, key, seen', le);
      DedupFromProps(rest, key, seen');
      forall x, j | x in DedupFrom(s, key, seen) && 0 <= j < |s| && key(s[j]) == key(x)
        ensures le(x, s[j])
      {
        if x == s[0] && key(s[0]) !in seen {
          if j > 0 {
            assert s[j] == rest[j - 1];
          }
        } else {
          assert x in DedupFrom(rest, key, seen');
          assert key(x) !in seen';
          assert j > 0;
          assert s[j] == rest[j - 1];
        }
      }
    }
  }

  /** pandas `drop_duplicates(subset=key, keep='last')`: keeps the last element of each key. */
  function DedupLast<T>(s: seq<T>, key: T -> string): seq<T>
  {
    if |s| == 0 then []
    else if key(s[0]) in Keys(s[1..], key) then DedupLast(s[1..], key)
    else [s[0]] + DedupLast(s[1..], key)
  }

  lemma {:induction false} DedupLastProps<T>(s: seq<T>, key: T -> string)
    ensures forall x :: x in DedupLast(s, key) ==> x in s
    ensures UniqueKeys(DedupLast(s, key), key)
    ensures Keys(DedupLast(s, key), key) == Keys(s, key)
  {
    if |s| > 0 {
      DedupLastProps(s[1..], key);
      KeysCons(s, key);
      if key(s[0]) !in Keys(s[1..], key) {
        KeysCons(DedupLast(s, key), key);
        assert DedupLast(s, key)[1..] == DedupLast(s[1..], key);
      }
    }
  }

  /** On a sorted list, the element kept for a key may follow every element with that key. */
  lemma {:induction false} DedupLastKeepsLast<T(!new)>(s: seq<T>, key: T -> string, le: (T, T) -> bool)
    requires TotalPreorder(le) && SortedBy(s, le)
    ensures forall x, j :: x in DedupLast(s, key) && 0 <= j < |s| && key(s[j]) == key(x) ==> le(s[j], x)
  {
    if |s| > 0 {
      var rest := s[1..];
      DedupLastKeepsLast(rest, key, le);
      DedupLastProps(rest, key);
      forall x, j | x in DedupLast(s, key) && 0 <= j < |s| && key(s[j]) == key(x)
        ensures le(s[j], x)
      {
        if x in DedupLast(rest, key) {
          if j > 0 {
            assert s[j] == rest[j - 1];
          } else {
            var k :| 0 <= k < |rest| && rest[k] == x;
            assert s[k + 1] == x;
          }
        } else {
          assert x == s[0];
          assert key(s[0]) !in Keys(rest, key);
          forall k | 0 <= k < |rest|
            ensures key(rest[k]) != key(s[0])
          {
            assert key(rest[k]) in Keys(rest, key);
          }
          assert j == 0;
        }
      }
    }
  }

  lemma DedupFromSorted<T(!new)>(s: seq<T>, key: T -> string, seen: set<string>, le: (T, T) -> bool)
    requires SortedBy(s, le)
    ensures SortedBy(DedupFrom(s, key, seen), le)
    decreases |s|
  {
    if |s| > 0 {
      var seen' := if key(s[0]) in seen then seen else seen + {key(s[0])};
      DedupFromSorted(s[1..], key, seen', le);
      DedupFromProps(s[1..], key, seen');
      var r := DedupFrom(s[1..], key, seen');
      forall k | 0 <= k < |r| ensures le(s[0], r[k]) {
        assert r[k] in s[1..];
      }
    }
  }

  lemma {:induction false} DedupLastSorted<T>(s: seq<T>, key: T -> string, le: (T, T) -> bool)
    requires SortedBy(s, le)
    ensures SortedBy(DedupLast(s, key), le)
    decreases |s|
  {
    if |s| > 0 {
      assert SortedBy(s[1..], le);
      DedupLastSorted(s[1..], key, le);
      DedupLastProps(s[1..], key);
      var r := DedupLast(s[1..], key);
      forall k | 0 <= k < |r| ensures le(s[0], r[k]) {
        assert r[k] in s[1..];
      }
    }
  }

  /**
   * `sort_values(score, ascending=False).drop_duplicates(code, keep='first').head(n)`:
   * the merge that closes the strategy screeners.
   */
  function TopUnique<T>(s: seq<T>, key: T -> string, le: (T, T) -> bool, n: nat): seq<T>
  {
    Take(DedupFirst(SortBy(s, le), key), n)
  }

  /** A list with unique keys carries as many keys as it has elements. */
  lemma {:induction false} UniqueKeysCount<T>(s: seq<T>, key: T -> string)
    requires UniqueKeys(s, key)
    ensures |Keys(s, key)| == |s|
  {
    if |s| > 0 {
      assert UniqueKeys(s[1..], key) by {
        forall i, j | 0 <= i < j < |s[1..]| ensures key(s[1..][i]) != key(s[1..][j]) {
          assert s[1..][i] == s[i + 1] && s[1..][j] == s[j + 1];
        }
      }
      UniqueKeysCount(s[1..], key);
      KeysCons(s, key);
      forall i | 0 <= i < |s[1..]| ensures key(s[1..][i]) != key(s[0]) {
        assert s[1..][i] == s[i + 1];
      }
      assert key(s[0]) !in Keys(s[1..], key);
    }
  }

  /**
   * The merged table has min(n, number of keys) rows, unique keys, is sorted,
   * holds only input rows, each kept row ranks first among the input rows with
   * its key, and every kept row may precede every input row whose key was left out.
   */
  lemma TopUniqueProps<T(!new)>(s: seq<T>, key: T -> string, le: (T, T) -> bool, n: nat)
    requires TotalPreorder(le)
    ensures |TopUnique(s, key, le, n)| == Min(n, |Keys(s, key)|)
    ensures UniqueKeys(TopUnique(s, key, le, n), key)
    ensures SortedBy(TopUnique(s, key, le, n), le)
    ensures forall x :: x in TopUnique(s, key, le, n) ==> x in s
    ensures forall x, y :: x in TopUnique(s, key, le, n) && y in s && key(y) == key(x) ==> le(x, y)
    ensures forall x, y :: x in TopUnique(s, key, le, n) && y in s && key(y) !in Keys(TopUnique(s, key, le, n), key) ==> le(x, y)
  {
    var sorted := SortBy(s, le);
    SortByCorrect(s, le);
    SortByMembers(s, le);
    SameMembersSameKeys(sorted, s, key);
    var d := DedupFirst(sorted, key);
    DedupFirstProps(sorted, key);
    DedupFromSorted(sorted, key, {}, le);
    DedupFromKeepsFirst(sorted, key, {}, le);
    UniqueKeysCount(d, key);
    var r := Take(d, n);
    forall x, y | x in r && y in s && key(y) == key(x)
      ensures le(x, y)
    {
      assert x in d;
      var j :| 0 <= j < |sorted| && sorted[j] == y;
    }
    forall x, y | x in r && y in s && key(y) !in Keys(r, key)
      ensures le(x, y)
    {
      TopUniqueDropped(sorted, d, r, x, y, key, le);
    }
  }

  /** The step of `TopUniqueProps` for one kept row x and one row y whose key was left out. */
  lemma TopUniqueDropped<T(!new)>(sorted: seq<T>, d: seq<T>, r: seq<T>, x: T, y: T, key: T -> string, le: (T, T) -> bool)
    requires TotalPreorder(le) && SortedBy(sorted, le) && SortedBy(d, le)
    requires d == DedupFirst(sorted, key) && Keys(d, key) == Keys(sorted, key) && |r| <= |d| && r == d[..|r|]
    requires forall z, j :: z in d && 0 <= j < |sorted| && key(sorted[j]) == key(z) ==> le(z, sorted[j])
    requires x in r && y in sorted && key(y) !in Keys(r, key)
    ensures le(x, y)
  {
    var i :| 0 <= i < |r| && r[i] == x;
    var j :| 0 <= j < |sorted| && sorted[j] == y;
    assert key(y) in Keys(d, key);
    var p :| 0 <= p < |d| && key(d[p]) == key(y);
    PastPrefix(d, r, p, key);
    assert d[i] == x && i < p;
    assert le(x, d[p]);
    assert le(d[p], y);
  }

  /** An element of d whose key the prefix r of d lacks lies past r. */
  lemma PastPrefix<T>(d: seq<T>, r: seq<T>, p: nat, key: T -> string)
    requires |r| <= |d| && r == d[..|r|] && p < |d| && key(d[p]) !in Keys(r, key)
    ensures p >= |r|
  {
    forall q | 0 <= q < |r| ensures key(d[q]) in Keys(r, key) {
      assert r[q] == d[q];
    }
  }

  /** Appending an element keeps it exactly when its key is neither seen nor already carried. */
  lemma {:induction false} DedupFromSnoc<T>(s: seq<T>, x: T, key: T -> string, seen: set<string>)
    ensures DedupFrom(s + [x], key, seen) ==
      DedupFrom(s, key, seen) + (if key(x) in seen || key(x) in Keys(s, key) then [] else [x])
    decreases |s|
  {
    if |s| == 0 {
      assert s + [x] == [x];
      assert Keys(s, key) == {};
    } else {
      var t := s + [x];
      assert t[0] == s[0] && t[1..] == s[1..] + [x];
      KeysCons(s, key);
      if key(s[0]) in seen {
        DedupFromSnoc(s[1..], x, key, seen);
      } else {
        DedupFromSnoc(s[1..], x, key, seen + {key(s[0])});
      }
    }
  }

  lemma RemoveAt<T>(b: seq<T>, p: nat)
    requires p < |b|
    ensures multiset(b[..p] + b[p + 1..]) == multiset(b) - multiset{b[p]}
  {
    assert b == b[..p] + [b[p]] + b[p + 1..];
  }

  /** Putting back into a list with unique keys an element whose key it lacks keeps the keys unique. */
  lemma InsertAtUnique<T>(b: seq<T>, p: nat, key: T -> string)
    requires p < |b|
    requires UniqueKeys(b[..p] + b[p + 1..], key)
    requires forall y :: y in b[..p] + b[p + 1..] ==> key(y) != key(b[p])
    ensures UniqueKeys(b, key)
  {
    var b' := b[..p] + b[p + 1..];
    forall i, j | 0 <= i < j < |b| ensures key(b[i]) != key(b[j]) {
      if i == p {
        assert b[j] == b'[j - 1];
      } else if j == p {
        assert b[i] == b'[i];
      } else {
        var i' := if i < p then i else i - 1;
        var j' := if j < p then j else j - 1;
        assert b[i] == b'[i'] && b[j] == b'[j'];
      }
    }
  }

  /** A permutation of a list with unique keys has unique keys. */
  lemma {:induction false} PermUniqueKeys<T>(a: seq<T>, b: seq<T>, key: T -> string)
    requires multiset(a) == multiset(b) && UniqueKeys(a, key)
    ensures UniqueKeys(b, key)
    decreases |a|
  {
    if |a| > 0 {
      var a0 := a[0];
      assert a0 in multiset(b);
      var p :| 0 <= p < |b| && b[p] == a0;
      var b' := b[..p] + b[p + 1..];
      RemoveAt(b, p);
      RemoveAt(a, 0);
      assert a[..0] + a[1..] == a[1..];
      assert UniqueKeys(a[1..], key) by {
        forall i, j | 0 <= i < j < |a[1..]| ensures key(a[1..][i]) != key(a[1..][j]) {
          assert a[1..][i] == a[i + 1] && a[1..][j] == a[j + 1];
        }
      }
      PermUniqueKeys(a[1..], b', key);
      forall y | y in b' ensures key(y) != key(a0) {
        assert y in multiset(a[1..]);
        var k :| 0 <= k < |a[1..]| && a[1..][k] == y;
        assert a[k + 1] == y;
      }
      InsertAtUnique(b, p, key);
    }
  }

  lemma KeysSnoc<T>(s: seq<T>, x: T, key: T -> string)
    ensures Keys(s + [x], key) == Keys(s, key) + {key(x)}
  {
    var t := s + [x];
    forall k | k in Keys(t, key) ensures k in Keys(s, key) + {key(x)} {
      var i :| 0 <= i < |t| && key(t[i]) == k;
      if i < |s| { assert t[i] == s[i]; }
    }
    forall k | k in Keys(s, key) + {key(x)} ensures k in Keys(t, key) {
      if k == key(x) { assert t[|s|] == x; }
      else { var i :| 0 <= i < |s| && key(s[i]) == k; assert t[i] == s[i]; }
    }
  }

  /**
   * The first n of a sorted list: sorted, input elements only, and each may
   * precede every element left out.
   */
  lemma TopOfSorted<T(!new)>(s: seq<T>, n: nat, le: (T, T) -> bool)
    requires TotalPreorder(le)
    ensures var top := Take(SortBy(s, le), n);
      SortedBy(top, le) && (forall x :: x in top ==> x in s) &&
      forall x, i :: x in s && x !in top && 0 <= i < |top| ==> le(top[i], x)
  {
    var sorted := SortBy(s, le);
    var top := Take(sorted, n);
    SortByCorrect(s, le);
    SortByMembers(s, le);
    TakeIsTop(sorted, n, le);
    forall x, i | x in s && x !in top && 0 <= i < |top| ensures le(top[i], x) {
      var j :| 0 <= j < |sorted| && sorted[j] == x;
      assert j >= |top|;
    }
  }
}
