/** Small vocabulary shared by every service: optional values, outcomes of a database
    transaction, sums over sequences and over finite sets of keys. */
module Basics {

  datatype Option<+T> = None | Some(value: T)

  /** What a transaction callback does: it finishes with a new database, or it throws and
      the database is rolled back. */
  datatype Outcome<+T> = Done(value: T) | Threw(error: string)

  /** The database after the transaction: the callback's result, or the old one. */
  function Commit<T>(outcome: Outcome<T>, before: T): T {
    match outcome
    case Done(after) => after
    case Threw(_) => before
  }

  function Min(a: int, b: int): int {
    if a <= b then a else b
  }

  function Pow2(n: nat): nat {
    if n == 0 then 1 else 2 * Pow2(n - 1)
  }

  function Lookup<K, V>(m: map<K, V>, k: K): Option<V> {
    if k in m then Some(m[k]) else None
  }

  /** Decimal digits of a number, as a template literal prints it. */
  function Show(n: nat): (s: string)
    ensures |s| >= 1
  {
    var digit := ["0", "1", "2", "3", "4", "5", "6", "7", "8", "9"][n % 10];
    if n < 10 then digit else Show(n / 10) + digit
  }

  // ---- sequences ----

  function MapSeq<A, B>(s: seq<A>, f: A -> B): (r: seq<B>)
    ensures |r| == |s|
    ensures forall i :: 0 <= i < |s| ==> r[i] == f(s[i])
  {
    if s == [] then [] else [f(s[0])] + MapSeq(s[1..], f)
  }

  lemma {:induction false} Pow2Monotone(a: nat, b: nat)
    requires a <= b
    ensures 1 <= Pow2(a) <= Pow2(b)
    decreases b
  {
    if a < b {
      Pow2Monotone(a, b - 1);
    } else if a > 0 {
      Pow2Monotone(a - 1, a - 1);
    }
  }

  lemma AppendAssociates<T>(a: seq<T>, b: seq<T>, c: seq<T>)
    ensures a + (b + c) == (a + b) + c
  {
  }

  /** Where `Array.find` stops: the first element that satisfies `p`. */
  function FindFirst<A>(s: seq<A>, p: A -> bool): (r: Option<nat>)
    ensures r.Some? ==> r.value < |s| && p(s[r.value]) && forall j :: 0 <= j < r.value ==> !p(s[j])
    ensures r.None? ==> forall j :: 0 <= j < |s| ==> !p(s[j])
  {
    if s == [] then None
    else if p(s[0]) then Some(0)
    else match FindFirst(s[1..], p)
      case None => None
      case Some(i) => Some(i + 1)
  }

  /** Appending does not change what is found. */
  lemma FindFirstAppend<A>(s: seq<A>, t: seq<A>, p: A -> bool)
    requires FindFirst(s, p).Some?
    ensures FindFirst(s + t, p) == FindFirst(s, p)
  {
    var i, j := FindFirst(s, p).value, FindFirst(s + t, p);
    assert (s + t)[i] == s[i];
    assert forall k :: 0 <= k < i ==> (s + t)[k] == s[k];
    assert j.Some?;
  }

  /** Sum of `f` over the elements of a sequence. */
  function SumBy<A>(s: seq<A>, f: A -> int): int {
    if s == [] then 0 else f(s[0]) + SumBy(s[1..], f)
  }

  lemma {:induction false} SumByAppend<A>(a: seq<A>, b: seq<A>, f: A -> int)
    ensures SumBy(a + b, f) == SumBy(a, f) + SumBy(b, f)
  {
    if a == [] {
      assert a + b == b;
    } else {
      assert (a + b)[1..] == a[1..] + b;
      SumByAppend(a[1..], b, f);
    }
  }

  lemma {:induction false} SumByMap<A, B>(s: seq<A>, g: A -> B, f: B -> int, h: A -> int)
    requires forall i :: 0 <= i < |s| ==> f(g(s[i])) == h(s[i])
    ensures SumBy(MapSeq(s, g), f) == SumBy(s, h)
  {
    if s != [] {
      assert MapSeq(s, g)[1..] == MapSeq(s[1..], g);
      SumByMap(s[1..], g, f, h);
    }
  }

  lemma {:induction false} SumByNonNegative<A>(s: seq<A>, f: A -> int)
    requires forall i :: 0 <= i < |s| ==> f(s[i]) >= 0
    ensures SumBy(s, f) >= 0
  {
    if s != [] {
      SumByNonNegative(s[1..], f);
    }
  }

  lemma WithoutIsPermutation<A>(b: seq<A>, j: nat)
    requires j < |b|
    ensures multiset(b) == multiset(b[..j] + b[j + 1..]) + multiset{b[j]}
  {
    assert b == b[..j] + ([b[j]] + b[j + 1..]);
  }

  /** Two sequences with the same multiset: the head of one occurs in the other, and removing
      it from both leaves equal multisets. */
  lemma HeadOccurs<A>(a: seq<A>, b: seq<A>) returns (j: nat)
    requires a != [] && multiset(a) == multiset(b)
    ensures j < |b| && b[j] == a[0]
  {
    assert a[0] in multiset(b);
    j :| 0 <= j < |b| && b[j] == a[0];
  }

  lemma HeadAndTail<A>(a: seq<A>)
    requires a != []
    ensures multiset(a) == multiset(a[1..]) + multiset{a[0]}
  {
    assert a == [a[0]] + a[1..];
  }

  lemma CancelOne<A>(x: multiset<A>, y: multiset<A>, e: A)
    requires x + multiset{e} == y + multiset{e}
    ensures x == y
  {
    assert x == x + multiset{e} - multiset{e};
    assert y == y + multiset{e} - multiset{e};
  }

  lemma TailsPermute<A>(a: seq<A>, b: seq<A>, j: nat)
    requires a != [] && multiset(a) == multiset(b) && j < |b| && b[j] == a[0]
    ensures multiset(a[1..]) == multiset(b[..j] + b[j + 1..])
  {
    WithoutIsPermutation(b, j);
    HeadAndTail(a);
    CancelOne(multiset(a[1..]), multiset(b[..j] + b[j + 1..]), a[0]);
  }

  lemma SumByWithout<A>(b: seq<A>, j: nat, f: A -> int)
    requires j < |b|
    ensures SumBy(b, f) == f(b[j]) + SumBy(b[..j] + b[j + 1..], f)
  {
    SumByAppend(b[..j], b[j + 1..], f);
    SumByAppend(b[..j], b[j..], f);
    assert b == b[..j] + b[j..];
    assert b[j..][1..] == b[j + 1..];
  }

  /** A sum does not depend on the order of its terms. */
  lemma {:induction false} SumByPermutation<A>(a: seq<A>, b: seq<A>, f: A -> int)
    requires multiset(a) == multiset(b)
    ensures SumBy(a, f) == SumBy(b, f)
  {
    if a == [] {
      assert |multiset(b)| == 0;
      assert b == [];
    } else {
      var j := HeadOccurs(a, b);
      TailsPermute(a, b, j);
      SumByPermutation(a[1..], b[..j] + b[j + 1..], f);
      SumByWithout(b, j, f);
    }
  }

  lemma PrefixIsPart<A>(s: seq<A>, n: nat)
    requires n <= |s|
    ensures multiset(s[..n]) <= multiset(s)
  {
    assert s == s[..n] + s[n..];
  }

  lemma PartCancelsOne<A>(x: multiset<A>, y: multiset<A>, e: A)
    requires x + multiset{e} <= y + multiset{e}
    ensures x <= y
  {
    forall k | k in x
      ensures x[k] <= y[k]
    {
      assert (x + multiset{e})[k] <= (y + multiset{e})[k];
    }
  }

  /** A part of non-negative terms sums to no more than the whole. */
  lemma {:induction false} SumByPart<A>(a: seq<A>, b: seq<A>, f: A -> int)
    requires multiset(a) <= multiset(b) && forall i :: 0 <= i < |b| ==> f(b[i]) >= 0
    ensures SumBy(a, f) <= SumBy(b, f)
  {
    if a == [] {
      SumByNonNegative(b, f);
    } else {
      HeadAndTail(a);
      assert a[0] in multiset(b);
      var j :| 0 <= j < |b| && b[j] == a[0];
      var rest := b[..j] + b[j + 1..];
      WithoutIsPermutation(b, j);
      assert forall i :: 0 <= i < |rest| ==> rest[i] == if i < j then b[i] else b[i + 1];
      PartCancelsOne(multiset(a[1..]), multiset(rest), a[0]);
      SumByPart(a[1..], rest, f);
      SumByWithout(b, j, f);
    }
  }

  lemma MapSeqOfWithout<A, B>(b: seq<A>, j: nat, f: A -> B)
    requires j < |b|
    ensures MapSeq(b[..j] + b[j + 1..], f) == MapSeq(b, f)[..j] + MapSeq(b, f)[j + 1..]
  {
    hide MapSeq;
    var rest := b[..j] + b[j + 1..];
    var images := MapSeq(b, f)[..j] + MapSeq(b, f)[j + 1..];
    forall i | 0 <= i < |rest|
      ensures images[i] == f(rest[i])
    {
      assert rest[i] == if i < j then b[i] else b[i + 1];
    }
    assert MapSeq(rest, f) == images;
  }

  lemma MapSeqWithout<A, B>(b: seq<A>, j: nat, f: A -> B)
    requires j < |b|
    ensures multiset(MapSeq(b, f)) == multiset(MapSeq(b[..j] + b[j + 1..], f)) + multiset{f(b[j])}
  {
    MapSeqOfWithout(b, j, f);
    assert MapSeq(b, f)[j] == f(b[j]);
    hide MapSeq;
    WithoutIsPermutation(MapSeq(b, f), j);
  }

  lemma MapSeqHead<A, B>(a: seq<A>, f: A -> B)
    requires a != []
    ensures multiset(MapSeq(a, f)) == multiset(MapSeq(a[1..], f)) + multiset{f(a[0])}
  {
    HeadAndTail(MapSeq(a, f));
    assert MapSeq(a, f)[1..] == MapSeq(a[1..], f);
  }

  /** Mapping respects reordering. */
  lemma {:induction false} MapSeqPermutation<A, B>(a: seq<A>, b: seq<A>, f: A -> B)
    requires multiset(a) == multiset(b)
    ensures multiset(MapSeq(a, f)) == multiset(MapSeq(b, f))
  {
    if a == [] {
      assert |multiset(b)| == 0;
      assert b == [];
    } else {
      var j := HeadOccurs(a, b);
      TailsPermute(a, b, j);
      MapSeqPermutation(a[1..], b[..j] + b[j + 1..], f);
      MapSeqHead(a, f);
      MapSeqWithout(b, j, f);
    }
  }

  // ---- finite sets ----

  /** Sum of `f` over a finite set of keys. */
  ghost function SumOver<K>(ks: set<K>, f: K -> int): int
    decreases |ks|
  {
    if ks == {} then 0 else
      var k :| k in ks;
      f(k) + SumOver(ks - {k}, f)
  }

  /** Any key may be summed first. */
  lemma {:induction false} SumOverPull<K>(ks: set<K>, k: K, f: K -> int)
    requires k in ks
    ensures SumOver(ks, f) == f(k) + SumOver(ks - {k}, f)
    decreases |ks|
  {
    var first :| first in ks && SumOver(ks, f) == f(first) + SumOver(ks - {first}, f);
    if first != k {
      SumOverPull(ks - {first}, k, f);
      SumOverPull(ks - {k}, first, f);
      assert ks - {first} - {k} == ks - {k} - {first};
    }
  }

  lemma {:induction false} SumOverSame<K>(ks: set<K>, f: K -> int, g: K -> int)
    requires forall k :: k in ks ==> f(k) == g(k)
    ensures SumOver(ks, f) == SumOver(ks, g)
    decreases |ks|
  {
    if ks != {} {
      var k :| k in ks;
      SumOverPull(ks, k, f);
      SumOverPull(ks, k, g);
      SumOverSame(ks - {k}, f, g);
    }
  }

  /** Changing one term changes the sum by the difference. */
  lemma SumOverChange<K>(ks: set<K>, k: K, f: K -> int, g: K -> int)
    requires k in ks
    requires forall j :: j in ks && j != k ==> f(j) == g(j)
    ensures SumOver(ks, g) == SumOver(ks, f) - f(k) + g(k)
  {
    SumOverPull(ks, k, f);
    SumOverPull(ks, k, g);
    SumOverSame(ks - {k}, f, g);
  }

  /** A new key adds its own term. */
  lemma SumOverInsert<K>(ks: set<K>, k: K, f: K -> int, g: K -> int)
    requires k !in ks
    requires forall j :: j in ks ==> f(j) == g(j)
    ensures SumOver(ks + {k}, g) == SumOver(ks, f) + g(k)
  {
    SumOverPull(ks + {k}, k, g);
    assert ks + {k} - {k} == ks;
    SumOverSame(ks, f, g);
  }

  lemma {:induction false} SumOverZero<K>(ks: set<K>, f: K -> int)
    requires forall k :: k in ks ==> f(k) == 0
    ensures SumOver(ks, f) == 0
    decreases |ks|
  {
    if ks != {} {
      var k :| k in ks;
      SumOverPull(ks, k, f);
      SumOverZero(ks - {k}, f);
    }
  }
}
