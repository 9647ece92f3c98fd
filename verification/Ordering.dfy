/** Sorting by a string key, as Array.prototype.sort orders paths; a char stands for one UTF-16 code unit. */
module Ordering {
  /** The order of strings: a prefix comes first, otherwise the smaller code unit at the first difference. */
  ghost predicate AtOrBefore(a: string, b: string) {
    || (|a| <= |b| && b[..|a|] == a)
    || exists i :: DiffersFirstAt(a, b, i) && a[i] < b[i]
  }

  ghost predicate DiffersFirstAt(a: string, b: string, i: int) {
    0 <= i < |a| && i < |b| && a[..i] == b[..i] && a[i] != b[i]
  }

  ghost predicate Ascending(s: seq<string>) {
    forall i, j :: 0 <= i < j < |s| ==> AtOrBefore(s[i], s[j]) && s[i] != s[j]
  }

  predicate Leq(a: string, b: string) {
    a == [] || (b != [] && (a[0] < b[0] || (a[0] == b[0] && Leq(a[1..], b[1..]))))
  }

  /** The recursive comparison is the order of strings. */
  lemma {:induction false} LeqIsOrder(a: string, b: string)
    ensures Leq(a, b) <==> AtOrBefore(a, b)
  {
    if a == [] {
      assert b[..|a|] == a;
    } else if b != [] && a[0] != b[0] {
      assert DiffersFirstAt(a, b, 0) by {
        assert a[..0] == b[..0];
      }
      assert |a| <= |b| ==> b[..|a|][0] == b[0];
      assert forall i :: 0 < i < |a| && i < |b| ==> a[..i][0] == a[0] && b[..i][0] == b[0];
    } else if b != [] {
      LeqIsOrder(a[1..], b[1..]);
      TailsDiffer(a, b);
      assert a == [a[0]] + a[1..] && b == [b[0]] + b[1..];
      if |a| <= |b| && b[..|a|] == a {
        assert b[1..][..|a| - 1] == b[..|a|][1..];
      }
      if |a| <= |b| && b[1..][..|a| - 1] == a[1..] {
        assert b[..|a|] == [b[0]] + b[1..][..|a| - 1];
      }
    }
  }

  lemma TailsDiffer(a: string, b: string)
    requires a != [] && b != [] && a[0] == b[0]
    ensures forall i :: DiffersFirstAt(a[1..], b[1..], i) <==> DiffersFirstAt(a, b, i + 1)
    ensures forall i :: DiffersFirstAt(a, b, i) ==> i >= 1 && DiffersFirstAt(a[1..], b[1..], i - 1)
  {
    forall i ensures DiffersFirstAt(a[1..], b[1..], i) <==> DiffersFirstAt(a, b, i + 1) {
      if 0 <= i < |a| - 1 && i < |b| - 1 {
        assert a[..i + 1] == [a[0]] + a[1..][..i] && b[..i + 1] == [b[0]] + b[1..][..i];
        assert a[..i + 1][1..] == a[1..][..i] && b[..i + 1][1..] == b[1..][..i];
      }
    }
    forall i | DiffersFirstAt(a, b, i) ensures i >= 1 && DiffersFirstAt(a[1..], b[1..], i - 1) {
      assert DiffersFirstAt(a[1..], b[1..], i - 1) <==> DiffersFirstAt(a, b, i - 1 + 1);
    }
  }

  lemma {:induction false} LeqTotal(a: string, b: string)
    ensures Leq(a, b) || Leq(b, a)
  {
    if a != [] && b != [] && a[0] == b[0] {
      LeqTotal(a[1..], b[1..]);
    }
  }

  lemma {:induction false} LeqAntisymmetric(a: string, b: string)
    requires Leq(a, b) && Leq(b, a)
    ensures a == b
  {
    if a != [] && b != [] {
      LeqAntisymmetric(a[1..], b[1..]);
      assert a == [a[0]] + a[1..] && b == [b[0]] + b[1..];
    }
  }

  lemma {:induction false} LeqTransitive(a: string, b: string, c: string)
    requires Leq(a, b) && Leq(b, c)
    ensures Leq(a, c)
  {
    if a != [] && a[0] == b[0] && b[0] == c[0] {
      LeqTransitive(a[1..], b[1..], c[1..]);
    }
  }

  ghost predicate SortedBy<T>(s: seq<T>, key: T -> string) {
    forall i, j :: 0 <= i < j < |s| ==> Leq(key(s[i]), key(s[j]))
  }

  function Insert<T>(x: T, s: seq<T>, key: T -> string): seq<T> {
    if s == [] then [x]
    else if Leq(key(x), key(s[0])) then [x] + s
    else [s[0]] + Insert(x, s[1..], key)
  }

  function Sort<T>(s: seq<T>, key: T -> string): seq<T> {
    if s == [] then [] else Insert(s[0], Sort(s[1..], key), key)
  }

  lemma {:induction false} InsertKeeps<T>(x: T, s: seq<T>, key: T -> string)
    ensures multiset(Insert(x, s, key)) == multiset(s) + multiset{x}
  {
    if s != [] {
      assert s == [s[0]] + s[1..];
      InsertKeeps(x, s[1..], key);
    }
  }

  /** Every element that is at or above a bound stays so when an element above it is inserted. */
  lemma SortedTail<T>(first: T, rest: seq<T>, key: T -> string)
    requires SortedBy(rest, key) && (rest != [] ==> Leq(key(first), key(rest[0])))
    ensures SortedBy([first] + rest, key)
  {
    forall j | 0 <= j < |rest| ensures Leq(key(first), key(rest[j])) {
      if j > 0 {
        LeqTransitive(key(first), key(rest[0]), key(rest[j]));
      }
    }
  }

  lemma {:induction false} InsertSorts<T>(x: T, s: seq<T>, key: T -> string)
    requires SortedBy(s, key)
    ensures SortedBy(Insert(x, s, key), key)
    ensures Insert(x, s, key) != [] && (Insert(x, s, key)[0] == x || (s != [] && Insert(x, s, key)[0] == s[0]))
  {
    hide Leq;
    if s != [] {
      if Leq(key(x), key(s[0])) {
        SortedTail(x, s, key);
      } else {
        LeqTotal(key(x), key(s[0]));
        InsertSorts(x, s[1..], key);
        SortedTail(s[0], Insert(x, s[1..], key), key);
      }
    } else {
      assert Insert(x, s, key) == [x];
    }
  }

  lemma {:induction false} SortSorts<T>(s: seq<T>, key: T -> string)
    ensures SortedBy(Sort(s, key), key) && multiset(Sort(s, key)) == multiset(s)
    ensures var t := Sort(s, key); forall i, j :: 0 <= i < j < |t| ==> AtOrBefore(key(t[i]), key(t[j]))
  {
    hide AtOrBefore;
    var t := Sort(s, key);
    forall i, j | 0 <= i < j < |t| ensures Leq(key(t[i]), key(t[j])) ==> AtOrBefore(key(t[i]), key(t[j])) {
      LeqIsOrder(key(t[i]), key(t[j]));
    }
    if s != [] {
      SortSorts(s[1..], key);
      InsertSorts(s[0], Sort(s[1..], key), key);
      InsertKeeps(s[0], Sort(s[1..], key), key);
      assert s == [s[0]] + s[1..];
    }
  }

  /** Sorted by themselves and without repetition is strictly ascending. */
  lemma SortedAscends(s: seq<string>, key: string -> string)
    requires forall x :: key(x) == x
    requires forall i, j :: 0 <= i < j < |s| ==> s[i] != s[j]
    ensures SortedBy(s, key) <==> Ascending(s)
  {
    hide Leq, AtOrBefore;
    forall i, j | 0 <= i < j < |s| ensures Leq(s[i], s[j]) <==> AtOrBefore(s[i], s[j]) {
      LeqIsOrder(s[i], s[j]);
    }
  }

  /** Two strictly sorted sequences with the same elements are the same sequence. */
  lemma {:induction false} SortedUnique(a: seq<string>, b: seq<string>, key: string -> string)
    requires forall x :: key(x) == x
    requires SortedBy(a, key) && SortedBy(b, key)
    requires forall i, j :: 0 <= i < j < |a| ==> a[i] != a[j]
    requires forall i, j :: 0 <= i < j < |b| ==> b[i] != b[j]
    requires forall x :: x in a <==> x in b
    ensures a == b
  {
    assert a == [] <==> b == [] by {
      assert a != [] ==> a[0] in a;
      assert b != [] ==> b[0] in b;
    }
    if a != [] {
      assert a[0] in a && b[0] in b;
      if a[0] != b[0] {
        assert Leq(a[0], b[0]) && Leq(b[0], a[0]);
        LeqAntisymmetric(a[0], b[0]);
      }
      forall x ensures x in a[1..] <==> x in b[1..] {
        assert x in a <==> x in b;
      }
      SortedUnique(a[1..], b[1..], key);
    }
  }
}
