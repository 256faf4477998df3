/** Byte order on strings and the two library sorts the source relies on:
    `sort` followed by `dedup`, and a stable sort by a key.
    Strings compare by code point, which for UTF-8 is the order of the bytes. */
module Ordering {

  /** Strict lexicographic order. */
  predicate Below(a: string, b: string) {
    b != [] && (a == [] || a[0] < b[0] || (a[0] == b[0] && Below(a[1..], b[1..])))
  }

  lemma {:induction false} BelowIsStrict(a: string)
    ensures !Below(a, a)
  {
    if a != [] { BelowIsStrict(a[1..]); }
  }

  lemma {:induction false} BelowIsTransitive(a: string, b: string, c: string)
    requires Below(a, b) && Below(b, c)
    ensures Below(a, c)
  {
    if a != [] && a[0] == b[0] && b[0] == c[0] { BelowIsTransitive(a[1..], b[1..], c[1..]); }
  }

  lemma {:induction false} BelowIsTotal(a: string, b: string)
    ensures Below(a, b) || a == b || Below(b, a)
  {
    if a != [] && b != [] && a[0] == b[0] {
      BelowIsTotal(a[1..], b[1..]);
      assert a == [a[0]] + a[1..] && b == [b[0]] + b[1..];
    }
  }

  /** Sorted without repeats. */
  ghost predicate Ascending(xs: seq<string>) {
    forall i, j :: 0 <= i < j < |xs| ==> Below(xs[i], xs[j])
  }

  function Insert(x: string, xs: seq<string>): (r: seq<string>)
    requires Ascending(xs)
    ensures Ascending(r)
    ensures forall y :: y in r <==> y == x || y in xs
  {
    if xs == [] then [x]
    else if x == xs[0] then xs
    else if Below(x, xs[0]) then
      assert forall j :: 0 < j < |xs| ==> Below(x, xs[j]) by {
        forall j | 0 < j < |xs| ensures Below(x, xs[j]) { BelowIsTransitive(x, xs[0], xs[j]); }
      }
      [x] + xs
    else
      BelowIsTotal(x, xs[0]);
      var rest := Insert(x, xs[1..]);
      assert forall y :: y in rest ==> Below(xs[0], y) by {
        forall y | y in rest ensures Below(xs[0], y) {
          if y != x { var j :| 0 <= j < |xs[1..]| && xs[1..][j] == y; assert y == xs[j + 1]; }
        }
      }
      assert forall y :: y in xs <==> y == xs[0] || y in xs[1..];
      [xs[0]] + rest
  }

  /** `sort` then `dedup`. */
  function SortedDistinct(xs: seq<string>): (r: seq<string>)
    ensures Ascending(r)
    ensures forall y :: y in r <==> y in xs
  {
    if xs == [] then []
    else
      assert forall y :: y in xs <==> y == xs[0] || y in xs[1..];
      Insert(xs[0], SortedDistinct(xs[1..]))
  }

  /** An ascending list is determined by its elements, so sorting forgets order and repeats. */
  lemma {:induction false} AscendingIsUnique(xs: seq<string>, ys: seq<string>)
    requires Ascending(xs) && Ascending(ys)
    requires forall s :: s in xs <==> s in ys
    ensures xs == ys
  {
    assert ys != [] ==> ys[0] in ys;
    if xs != [] {
      assert xs[0] in ys;
      var j :| 0 <= j < |ys| && ys[j] == xs[0];
      assert ys[0] in xs;
      var i :| 0 <= i < |xs| && xs[i] == ys[0];
      if i > 0 && j > 0 {
        BelowIsTransitive(xs[0], xs[i], ys[j]);
        BelowIsStrict(xs[0]);
      }
      assert xs[0] == ys[0];
      forall s ensures s in xs[1..] <==> s in ys[1..] {
        BelowIsStrict(xs[0]);
        assert s in xs <==> s == xs[0] || s in xs[1..];
        assert s in ys <==> s == ys[0] || s in ys[1..];
      }
      AscendingIsUnique(xs[1..], ys[1..]);
      assert xs == [xs[0]] + xs[1..] && ys == [ys[0]] + ys[1..];
    }
  }

  lemma SortForgetsOrder(xs: seq<string>, ys: seq<string>)
    requires forall s :: s in xs <==> s in ys
    ensures SortedDistinct(xs) == SortedDistinct(ys)
  {
    AscendingIsUnique(SortedDistinct(xs), SortedDistinct(ys));
  }

  // ---- Stable sort by a two-part key ------------------------------------------------

  type Key = (string, string)

  predicate KeyBelow(a: Key, b: Key) {
    Below(a.0, b.0) || (a.0 == b.0 && Below(a.1, b.1))
  }

  lemma KeyBelowIsTransitive(a: Key, b: Key, c: Key)
    requires KeyBelow(a, b) && KeyBelow(b, c)
    ensures KeyBelow(a, c)
  {
    if Below(a.0, b.0) && Below(b.0, c.0) { BelowIsTransitive(a.0, b.0, c.0); }
    if Below(a.1, b.1) && Below(b.1, c.1) { BelowIsTransitive(a.1, b.1, c.1); }
  }

  lemma KeyBelowIsStrict(a: Key, b: Key)
    requires KeyBelow(a, b)
    ensures a != b && !KeyBelow(b, a)
  {
    if a == b || KeyBelow(b, a) {
      if KeyBelow(b, a) { KeyBelowIsTransitive(a, b, a); }
      BelowIsStrict(a.0);
      BelowIsStrict(a.1);
    }
  }

  lemma KeyBelowIsTotal(a: Key, b: Key)
    ensures KeyBelow(a, b) || a == b || KeyBelow(b, a)
  {
    BelowIsTotal(a.0, b.0);
    BelowIsTotal(a.1, b.1);
  }

  /** Insert after every element whose key is not greater, as a stable sort does. */
  function InsertBy<T>(x: T, xs: seq<T>, key: T -> Key): (r: seq<T>)
    ensures multiset(r) == multiset(xs) + multiset{x}
  {
    if xs == [] then [x]
    else if KeyBelow(key(x), key(xs[0])) then [x] + xs
    else
      assert xs == [xs[0]] + xs[1..];
      [xs[0]] + InsertBy(x, xs[1..], key)
  }

  function SortBy<T>(xs: seq<T>, key: T -> Key): (r: seq<T>)
    ensures multiset(r) == multiset(xs)
  {
    if xs == [] then []
    else
      assert xs == xs[..|xs| - 1] + [xs[|xs| - 1]];
      InsertBy(xs[|xs| - 1], SortBy(xs[..|xs| - 1], key), key)
  }

  ghost predicate AscendingBy<T>(xs: seq<T>, key: T -> Key) {
    forall i, j :: 0 <= i < j < |xs| ==> !KeyBelow(key(xs[j]), key(xs[i]))
  }

  ghost predicate DistinctBy<T>(xs: seq<T>, key: T -> Key) {
    forall i, j :: 0 <= i < j < |xs| ==> key(xs[i]) != key(xs[j])
  }

  lemma {:induction false} InsertByAscends<T>(x: T, xs: seq<T>, key: T -> Key)
    requires AscendingBy(xs, key)
    ensures AscendingBy(InsertBy(x, xs, key), key)
  {
    if xs != [] {
      if KeyBelow(key(x), key(xs[0])) {
        forall j | 0 <= j < |xs| ensures !KeyBelow(key(xs[j]), key(x)) {
          if KeyBelow(key(xs[j]), key(x)) {
            KeyBelowIsTransitive(key(xs[j]), key(x), key(xs[0]));
            if j == 0 { KeyBelowIsStrict(key(xs[0]), key(xs[0])); }
          }
        }
      } else {
        var rest := InsertBy(x, xs[1..], key);
        InsertByAscends(x, xs[1..], key);
        forall j | 0 <= j < |rest| ensures !KeyBelow(key(rest[j]), key(xs[0])) {
          assert rest[j] in multiset(rest);
          assert rest[j] == x || rest[j] in xs[1..];
          if rest[j] in xs[1..] { var k :| 0 <= k < |xs[1..]| && xs[1..][k] == rest[j]; assert rest[j] == xs[k + 1]; }
        }
      }
    }
  }

  lemma {:induction false} SortByAscends<T>(xs: seq<T>, key: T -> Key)
    ensures AscendingBy(SortBy(xs, key), key)
  {
    if xs != [] {
      SortByAscends(xs[..|xs| - 1], key);
      InsertByAscends(xs[|xs| - 1], SortBy(xs[..|xs| - 1], key), key);
    }
  }

  ghost predicate StrictlyAscendingBy<T>(xs: seq<T>, key: T -> Key) {
    forall i, j :: 0 <= i < j < |xs| ==> KeyBelow(key(xs[i]), key(xs[j]))
  }

  /** A strictly ascending list is determined by its elements. */
  lemma {:induction false} AscendingByIsUnique<T>(xs: seq<T>, ys: seq<T>, key: T -> Key)
    requires StrictlyAscendingBy(xs, key) && StrictlyAscendingBy(ys, key)
    requires forall x :: x in xs <==> x in ys
    ensures xs == ys
  {
    assert ys != [] ==> ys[0] in ys;
    if xs != [] {
      assert xs[0] in ys && ys[0] in xs;
      var j :| 0 <= j < |ys| && ys[j] == xs[0];
      var i :| 0 <= i < |xs| && xs[i] == ys[0];
      if i > 0 && j > 0 { KeyBelowIsStrict(key(xs[0]), key(xs[i])); }
      assert xs[0] == ys[0];
      forall x ensures x in xs[1..] <==> x in ys[1..] {
        NotInTail(xs, key);
        NotInTail(ys, key);
        assert x in xs <==> x == xs[0] || x in xs[1..];
        assert x in ys <==> x == ys[0] || x in ys[1..];
      }
      AscendingByIsUnique(xs[1..], ys[1..], key);
      assert xs == [xs[0]] + xs[1..] && ys == [ys[0]] + ys[1..];
    }
  }

  lemma NotInTail<T>(xs: seq<T>, key: T -> Key)
    requires StrictlyAscendingBy(xs, key) && xs != []
    ensures xs[0] !in xs[1..]
  {
    if xs[0] in xs[1..] {
      var k :| 0 <= k < |xs[1..]| && xs[1..][k] == xs[0];
      KeyBelowIsStrict(key(xs[0]), key(xs[k + 1]));
    }
  }

  lemma DistinctKeysArePermutable<T>(xs: seq<T>, ys: seq<T>, key: T -> Key)
    requires DistinctBy(xs, key) && multiset(xs) == multiset(ys)
    ensures DistinctBy(ys, key)
  {
    forall i, j | 0 <= i < j < |ys| ensures key(ys[i]) != key(ys[j]) {
      if key(ys[i]) == key(ys[j]) {
        assert ys[i] in multiset(xs) && ys[j] in multiset(xs);
        var a :| 0 <= a < |xs| && xs[a] == ys[i];
        var b :| 0 <= b < |xs| && xs[b] == ys[j];
        assert a == b;
        RepeatCountsTwice(ys, i, j);
        OnceCountsOnce(xs, a, key);
      }
    }
  }

  lemma RepeatCountsTwice<T>(ys: seq<T>, i: nat, j: nat)
    requires i < j < |ys| && ys[i] == ys[j]
    ensures multiset(ys)[ys[i]] >= 2
  {
    assert ys == ys[..j] + ys[j..];
    assert ys[..j][i] == ys[i] && ys[j..][0] == ys[j];
    assert ys[i] in multiset(ys[..j]) && ys[i] in multiset(ys[j..]);
  }

  lemma OnceCountsOnce<T>(xs: seq<T>, a: nat, key: T -> Key)
    requires DistinctBy(xs, key) && a < |xs|
    ensures multiset(xs)[xs[a]] == 1
  {
    assert xs == xs[..a] + [xs[a]] + xs[a + 1..];
    assert forall k :: 0 <= k < |xs[..a]| ==> xs[..a][k] == xs[k];
    var after := xs[a + 1..];
    assert forall k {:trigger after[k]} :: 0 <= k < |after| ==> after[k] == xs[a + 1 + k];
    assert xs[a] !in multiset(xs[..a]) && xs[a] !in multiset(after);
  }

  lemma SortByIsStrict<T>(xs: seq<T>, key: T -> Key)
    requires DistinctBy(xs, key)
    ensures StrictlyAscendingBy(SortBy(xs, key), key)
  {
    var ys := SortBy(xs, key);
    SortByAscends(xs, key);
    DistinctKeysArePermutable(xs, ys, key);
    forall i, j | 0 <= i < j < |ys| ensures KeyBelow(key(ys[i]), key(ys[j])) {
      KeyBelowIsTotal(key(ys[i]), key(ys[j]));
    }
  }

  lemma SortByForgetsOrder<T>(xs: seq<T>, ys: seq<T>, key: T -> Key)
    requires DistinctBy(xs, key) && multiset(xs) == multiset(ys)
    ensures SortBy(xs, key) == SortBy(ys, key)
  {
    DistinctKeysArePermutable(xs, ys, key);
    SortByIsStrict(xs, key);
    SortByIsStrict(ys, key);
    forall x ensures x in SortBy(xs, key) <==> x in SortBy(ys, key) {
      assert x in SortBy(xs, key) <==> x in multiset(SortBy(xs, key));
      assert x in SortBy(ys, key) <==> x in multiset(SortBy(ys, key));
    }
    AscendingByIsUnique(SortBy(xs, key), SortBy(ys, key), key);
  }
}
