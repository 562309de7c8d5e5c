/**
 * The ordering the resource services impose on their outputs.
 *
 * Every service sorts with `Stream.sorted(Comparator)`, where the comparator is built from
 * `Comparator.comparing`, `comparingInt`, `comparingLong` and `thenComparing`. Such a
 * comparator compares a tuple of fields lexicographically, so it is modelled here as a
 * sort key: a sequence of parts, each a String (compared as `String.compareTo` does) or
 * a number. `Stream.sorted` on an ordered stream is stable; `SortByKey` is a stable sort,
 * and `StableSortUnique` shows that a stable sort's output is determined by its input, so
 * the particular algorithm the platform uses does not matter.
 */
module Ordering {

  /** One component of a sort key. */
  datatype KeyPart = Str(s: string) | Num(n: int)

  /** The tuple of fields a comparator looks at, most significant first. */
  type SortKey = seq<KeyPart>

  // ---------------------------------------------------------------------------------------
  // String.compareTo: character by character, a proper prefix before the longer string
  // ---------------------------------------------------------------------------------------

  predicate StrLt(a: string, b: string)
    decreases |a|
  {
    if a == [] then b != []
    else if b == [] then false
    else a[0] < b[0] || (a[0] == b[0] && StrLt(a[1..], b[1..]))
  }

  lemma {:induction false} StrLtIrreflexive(a: string)
    ensures !StrLt(a, a)
    decreases |a|
  {
    if a != [] {
      StrLtIrreflexive(a[1..]);
    }
  }

  lemma {:induction false} StrLtTransitive(a: string, b: string, c: string)
    requires StrLt(a, b) && StrLt(b, c)
    ensures StrLt(a, c)
    decreases |a|
  {
    if a != [] && a[0] == b[0] && b[0] == c[0] {
      StrLtTransitive(a[1..], b[1..], c[1..]);
    }
  }

  lemma {:induction false} StrLtTotal(a: string, b: string)
    ensures a == b || StrLt(a, b) || StrLt(b, a)
    decreases |a|
  {
    if a != [] && b != [] && a[0] == b[0] {
      StrLtTotal(a[1..], b[1..]);
      if a[1..] == b[1..] {
        assert a == [a[0]] + a[1..] && b == [b[0]] + b[1..];
      }
    }
  }

  // ---------------------------------------------------------------------------------------
  // Key parts and keys; keys compare lexicographically (Comparator.thenComparing)
  // ---------------------------------------------------------------------------------------

  predicate PartLt(x: KeyPart, y: KeyPart)
  {
    match (x, y)
    case (Str(a), Str(b)) => StrLt(a, b)
    case (Num(m), Num(n)) => m < n
    case (Num(_), Str(_)) => true
    case (Str(_), Num(_)) => false
  }

  lemma PartLtIrreflexive(x: KeyPart)
    ensures !PartLt(x, x)
  {
    if x.Str? {
      StrLtIrreflexive(x.s);
    }
  }

  lemma PartLtTransitive(x: KeyPart, y: KeyPart, z: KeyPart)
    requires PartLt(x, y) && PartLt(y, z)
    ensures PartLt(x, z)
  {
    if x.Str? && y.Str? && z.Str? {
      StrLtTransitive(x.s, y.s, z.s);
    }
  }

  lemma PartLtTotal(x: KeyPart, y: KeyPart)
    ensures x == y || PartLt(x, y) || PartLt(y, x)
  {
    if x.Str? && y.Str? {
      StrLtTotal(x.s, y.s);
    }
  }

  /** The comparator says `a` sorts strictly before `b`. */
  predicate KeyLt(a: SortKey, b: SortKey)
    decreases |a|
  {
    if a == [] then b != []
    else if b == [] then false
    else PartLt(a[0], b[0]) || (a[0] == b[0] && KeyLt(a[1..], b[1..]))
  }

  /** The comparator returns a value <= 0 for `a` and `b`. */
  predicate KeyLe(a: SortKey, b: SortKey)
  {
    a == b || KeyLt(a, b)
  }

  lemma {:induction false} KeyLtIrreflexive(a: SortKey)
    ensures !KeyLt(a, a)
    decreases |a|
  {
    if a != [] {
      PartLtIrreflexive(a[0]);
      KeyLtIrreflexive(a[1..]);
    }
  }

  lemma {:induction false} KeyLtTransitive(a: SortKey, b: SortKey, c: SortKey)
    requires KeyLt(a, b) && KeyLt(b, c)
    ensures KeyLt(a, c)
    decreases |a|
  {
    if a != [] && b != [] && c != [] {
      if PartLt(a[0], b[0]) && PartLt(b[0], c[0]) {
        PartLtTransitive(a[0], b[0], c[0]);
      } else if a[0] == b[0] && b[0] == c[0] {
        KeyLtTransitive(a[1..], b[1..], c[1..]);
      }
    }
  }

  lemma {:induction false} KeyLtTotal(a: SortKey, b: SortKey)
    ensures a == b || KeyLt(a, b) || KeyLt(b, a)
    decreases |a|
  {
    if a != [] && b != [] {
      PartLtTotal(a[0], b[0]);
      if a[0] == b[0] {
        KeyLtTotal(a[1..], b[1..]);
        if a[1..] == b[1..] {
          assert a == [a[0]] + a[1..] && b == [b[0]] + b[1..];
        }
      }
    }
  }

  /** Two keys each <= the other are the same key: a comparator result of 0 means equal keys. */
  lemma KeyLeAntisymmetric(a: SortKey, b: SortKey)
    requires KeyLe(a, b) && KeyLe(b, a)
    ensures a == b
  {
    if a != b {
      KeyLtTransitive(a, b, a);
      KeyLtIrreflexive(a);
    }
  }

  lemma KeyLeTransitive(a: SortKey, b: SortKey, c: SortKey)
    requires KeyLe(a, b) && KeyLe(b, c)
    ensures KeyLe(a, c)
  {
    if a != b && b != c {
      KeyLtTransitive(a, b, c);
    }
  }

  /** `a` is not after `b` in `String.compareTo` order. */
  predicate StrLe(a: string, b: string)
  {
    a == b || StrLt(a, b)
  }

  /** A one-field comparator, in terms of the field. */
  lemma KeyLeOne(x: KeyPart, y: KeyPart)
    ensures KeyLe([x], [y]) <==> x == y || PartLt(x, y)
  {
    assert [x][1..] == [] && [y][1..] == [];
  }

  /** A `thenComparing` of two fields, in terms of the fields. */
  lemma KeyLeTwo(x1: KeyPart, x2: KeyPart, y1: KeyPart, y2: KeyPart)
    ensures KeyLe([x1, x2], [y1, y2]) <==> PartLt(x1, y1) || (x1 == y1 && (x2 == y2 || PartLt(x2, y2)))
  {
    assert [x1, x2][1..] == [x2] && [y1, y2][1..] == [y2];
    KeyLeOne(x2, y2);
    if x1 == y1 && x2 == y2 {
      PartLtIrreflexive(x1);
    }
  }

  /** A `thenComparing` of three fields, in terms of the fields. */
  lemma KeyLeThree(x1: KeyPart, x2: KeyPart, x3: KeyPart, y1: KeyPart, y2: KeyPart, y3: KeyPart)
    ensures KeyLe([x1, x2, x3], [y1, y2, y3]) <==>
      PartLt(x1, y1) || (x1 == y1 && (PartLt(x2, y2) || (x2 == y2 && (x3 == y3 || PartLt(x3, y3)))))
  {
    assert [x1, x2, x3][1..] == [x2, x3] && [y1, y2, y3][1..] == [y2, y3];
    KeyLeTwo(x2, x3, y2, y3);
    if x1 == y1 && x2 == y2 && x3 == y3 {
      PartLtIrreflexive(x1);
    }
  }

  // ---------------------------------------------------------------------------------------
  // Sorted sequences, the elements of one key, and the stable sort
  // ---------------------------------------------------------------------------------------

  /** Ascending by the key: what the services' `sorted(...)` guarantees. */
  ghost predicate SortedByKey<T>(s: seq<T>, key: T -> SortKey)
  {
    forall i, j :: 0 <= i < j < |s| ==> KeyLe(key(s[i]), key(s[j]))
  }

  /** The elements of `s` whose key is `k`, in the order they have in `s`. */
  function WithKey<T>(s: seq<T>, key: T -> SortKey, k: SortKey): seq<T>
  {
    if s == [] then []
    else (if key(s[0]) == k then [s[0]] else []) + WithKey(s[1..], key, k)
  }

  lemma {:induction false} WithKeyMembers<T>(s: seq<T>, key: T -> SortKey, k: SortKey, x: T)
    ensures x in WithKey(s, key, k) <==> x in s && key(x) == k
  {
    if s != [] {
      WithKeyMembers(s[1..], key, k, x);
      assert s == [s[0]] + s[1..];
    }
  }

  /** Puts `x` in front of every element whose key is not smaller: the stable insertion step. */
  function Insert<T>(x: T, s: seq<T>, key: T -> SortKey): (r: seq<T>)
    requires SortedByKey(s, key)
    ensures |r| == |s| + 1
    ensures multiset(r) == multiset(s) + multiset{x}
    ensures forall i :: 0 <= i < |r| ==> r[i] == x || r[i] in s
    ensures SortedByKey(r, key)
  {
    if s == [] || KeyLe(key(x), key(s[0])) then
      ConsSorted(x, s, key);
      [x] + s
    else
      var rest := Insert(x, s[1..], key);
      assert s == [s[0]] + s[1..];
      KeyLtTotal(key(x), key(s[0]));
      assert KeyLe(key(s[0]), key(rest[0])) by {
        if rest[0] != x {
          var m :| 0 <= m < |s[1..]| && s[1..][m] == rest[0];
          assert s[m + 1] == rest[0];
        }
      }
      ConsSorted(s[0], rest, key);
      [s[0]] + rest
  }

  /** Putting an element no greater than the head in front of a sorted sequence keeps it sorted. */
  lemma ConsSorted<T>(x: T, s: seq<T>, key: T -> SortKey)
    requires SortedByKey(s, key)
    requires s == [] || KeyLe(key(x), key(s[0]))
    ensures SortedByKey([x] + s, key)
  {
    forall j | 0 <= j < |s|
      ensures KeyLe(key(x), key(s[j]))
    {
      if j > 0 {
        KeyLeTransitive(key(x), key(s[0]), key(s[j]));
      }
    }
    forall i, j | 0 <= i < j < |s| + 1
      ensures KeyLe(key(([x] + s)[i]), key(([x] + s)[j]))
    {
      assert ([x] + s)[j] == s[j - 1];
      if i > 0 {
        assert ([x] + s)[i] == s[i - 1];
      }
    }
  }

  /**
   * `Stream.sorted` with a key comparator: ascending, a permutation of the input, and
   * stable (the elements sharing one key keep their input order).
   */
  function SortByKey<T>(s: seq<T>, key: T -> SortKey): (r: seq<T>)
    ensures |r| == |s|
    ensures multiset(r) == multiset(s)
    ensures SortedByKey(r, key)
    ensures forall k :: WithKey(r, key, k) == WithKey(s, key, k)
  {
    if s == [] then []
    else
      var sortedTail := SortByKey(s[1..], key);
      assert s == [s[0]] + s[1..];
      assert forall k :: WithKey(Insert(s[0], sortedTail, key), key, k) == WithKey(s, key, k) by {
        forall k ensures WithKey(Insert(s[0], sortedTail, key), key, k) == WithKey(s, key, k) {
          InsertWithKey(s[0], sortedTail, key, k);
        }
      }
      Insert(s[0], sortedTail, key)
  }

  lemma {:induction false} InsertWithKey<T>(x: T, s: seq<T>, key: T -> SortKey, k: SortKey)
    requires SortedByKey(s, key)
    ensures WithKey(Insert(x, s, key), key, k) == (if key(x) == k then [x] else []) + WithKey(s, key, k)
  {
    if s == [] || KeyLe(key(x), key(s[0])) {
      assert Insert(x, s, key) == [x] + s;
      WithKeyCons(x, s, key, k);
    } else {
      assert key(x) != key(s[0]);
      SortedTail(s, key);
      var rest := Insert(x, s[1..], key);
      assert Insert(x, s, key) == [s[0]] + rest;
      InsertWithKey(x, s[1..], key, k);
      WithKeyCons(s[0], rest, key, k);
      WithKeyCons(s[0], s[1..], key, k);
      assert [s[0]] + s[1..] == s;
      SwapEmpty(if key(s[0]) == k then [s[0]] else [], if key(x) == k then [x] else [], WithKey(s[1..], key, k));
    }
  }

  lemma WithKeyCons<T>(h: T, t: seq<T>, key: T -> SortKey, k: SortKey)
    ensures WithKey([h] + t, key, k) == (if key(h) == k then [h] else []) + WithKey(t, key, k)
  {
    assert ([h] + t)[0] == h && ([h] + t)[1..] == t;
  }

  lemma SwapEmpty<T>(a: seq<T>, b: seq<T>, c: seq<T>)
    requires a == [] || b == []
    ensures a + (b + c) == b + (a + c)
  {
  }

  lemma WithKeySingleton<T>(y: T, key: T -> SortKey, k: SortKey)
    ensures WithKey([y], key, k) == if key(y) == k then [y] else []
  {
    assert [y][1..] == [];
  }

  lemma SortedTail<T>(s: seq<T>, key: T -> SortKey)
    requires s != [] && SortedByKey(s, key)
    ensures SortedByKey(s[1..], key)
  {
    forall i, j | 0 <= i < j < |s| - 1
      ensures KeyLe(key(s[1..][i]), key(s[1..][j]))
    {
      assert s[1..][i] == s[i + 1] && s[1..][j] == s[j + 1];
    }
  }

  lemma {:induction false} WithKeyAppend<T>(a: seq<T>, b: seq<T>, key: T -> SortKey, k: SortKey)
    ensures WithKey(a + b, key, k) == WithKey(a, key, k) + WithKey(b, key, k)
  {
    if a == [] {
      assert a + b == b;
    } else {
      assert (a + b)[0] == a[0] && (a + b)[1..] == a[1..] + b;
      WithKeyAppend(a[1..], b, key, k);
    }
  }

  /** The elements of one key in a three-element sequence. */
  lemma WithKeyThree<T>(x: T, y: T, z: T, key: T -> SortKey, k: SortKey)
    ensures WithKey([x, y, z], key, k) ==
      (if key(x) == k then [x] else []) + (if key(y) == k then [y] else []) + (if key(z) == k then [z] else [])
  {
    assert [x, y, z][1..] == [y, z] && [y, z][1..] == [z] && [z][1..] == [];
    var wz := if key(z) == k then [z] else [];
    assert WithKey([z], key, k) == wz + WithKey([], key, k) == wz;
    assert WithKey([y, z], key, k) == (if key(y) == k then [y] else []) + wz;
  }

  /** A common prefix does not change how two strings compare. */
  lemma {:induction false} StrLtCommonPrefix(p: string, a: string, b: string)
    requires StrLt(a, b)
    ensures StrLt(p + a, p + b)
  {
    if p != [] {
      StrLtCommonPrefix(p[1..], a, b);
      assert (p + a)[0] == p[0] == (p + b)[0];
      assert (p + a)[1..] == p[1..] + a && (p + b)[1..] == p[1..] + b;
    } else {
      assert p + a == a && p + b == b;
    }
  }

  /** A sorted output that keeps every key's elements in input order. */
  ghost predicate IsStableSortOf<T>(r: seq<T>, s: seq<T>, key: T -> SortKey)
  {
    SortedByKey(r, key) && forall k :: WithKey(r, key, k) == WithKey(s, key, k)
  }

  /**
   * Two sorted sequences that agree on the order of every key's elements are equal.
   * Hence a stable sort's result is unique.
   */
  lemma {:induction false} StableSortUnique<T>(a: seq<T>, b: seq<T>, key: T -> SortKey)
    requires SortedByKey(a, key) && SortedByKey(b, key)
    requires forall k :: WithKey(a, key, k) == WithKey(b, key, k)
    ensures a == b
    decreases |a|
  {
    if a == [] || b == [] {
      if a != [] {
        WithKeyMembers(a, key, key(a[0]), a[0]);
        assert false;
      } else if b != [] {
        WithKeyMembers(b, key, key(b[0]), b[0]);
        assert false;
      }
    } else {
      var ka, kb := key(a[0]), key(b[0]);
      WithKeyMembers(a, key, ka, a[0]);
      WithKeyMembers(b, key, ka, a[0]);
      var i :| 0 <= i < |b| && b[i] == a[0];
      assert KeyLe(kb, ka) by {
        if i > 0 { assert KeyLe(key(b[0]), key(b[i])); }
      }
      WithKeyMembers(b, key, kb, b[0]);
      WithKeyMembers(a, key, kb, b[0]);
      var j :| 0 <= j < |a| && a[j] == b[0];
      assert KeyLe(ka, kb) by {
        if j > 0 { assert KeyLe(key(a[0]), key(a[j])); }
      }
      KeyLeAntisymmetric(ka, kb);
      assert a == [a[0]] + a[1..] && b == [b[0]] + b[1..];
      assert WithKey(a, key, ka) == [a[0]] + WithKey(a[1..], key, ka);
      assert WithKey(b, key, ka) == [b[0]] + WithKey(b[1..], key, ka);
      forall k ensures WithKey(a[1..], key, k) == WithKey(b[1..], key, k) {
        var wa, wb := WithKey(a[1..], key, k), WithKey(b[1..], key, k);
        assert WithKey(a, key, k) == WithKey(b, key, k);
        if k == ka {
          assert ([a[0]] + wa)[1..] == wa && ([b[0]] + wb)[1..] == wb;
        } else {
          assert WithKey(a, key, k) == wa && WithKey(b, key, k) == wb;
        }
      }
      assert SortedByKey(a[1..], key) && SortedByKey(b[1..], key);
      StableSortUnique(a[1..], b[1..], key);
    }
  }

  /** The stable sort of a sequence is exactly `SortByKey`'s result. */
  lemma StableSortIsSortByKey<T>(r: seq<T>, s: seq<T>, key: T -> SortKey)
    ensures IsStableSortOf(r, s, key) <==> r == SortByKey(s, key)
  {
    if IsStableSortOf(r, s, key) {
      StableSortUnique(r, SortByKey(s, key), key);
    }
  }
}
