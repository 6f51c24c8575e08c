/** The byte order of strings, sorting, removing neighbours that repeat, and ordered enumeration of a set. */
module Ordering {
  predicate Leq(a: string, b: string) {
    |a| == 0 || (|b| > 0 && (a[0] < b[0] || (a[0] == b[0] && Leq(a[1..], b[1..]))))
  }

  lemma {:induction false} LeqTotal(a: string, b: string)
    ensures Leq(a, b) || Leq(b, a)
    ensures Leq(a, b) && Leq(b, a) ==> a == b
  {
    if |a| > 0 && |b| > 0 && a[0] == b[0] {
      LeqTotal(a[1..], b[1..]);
      assert a == [a[0]] + a[1..] && b == [b[0]] + b[1..];
    }
  }

  lemma {:induction false} LeqTrans(a: string, b: string, c: string)
    requires Leq(a, b) && Leq(b, c)
    ensures Leq(a, c)
  {
    if |a| > 0 && a[0] == b[0] == c[0] {
      LeqTrans(a[1..], b[1..], c[1..]);
    }
  }

  /** `a` is a prefix of `b`, or smaller where they first differ. */
  ghost predicate Before(a: string, b: string) {
    a <= b || exists i: nat :: FirstDiffers(a, b, i) && a[i] < b[i]
  }

  lemma BeforeTail(a: string, b: string)
    requires a != [] && b != [] && a[0] == b[0]
    ensures Before(a, b) <==> Before(a[1..], b[1..])
  {
    assert a == [a[0]] + a[1..] && b == [b[0]] + b[1..];
    if i: nat :| FirstDiffers(a[1..], b[1..], i) && a[1..][i] < b[1..][i] {
      DiffersTail(a, b, i + 1);
    }
    if i: nat :| FirstDiffers(a, b, i) && a[i] < b[i] {
      DiffersTail(a, b, i);
    }
  }

  lemma DiffersTail(a: string, b: string, i: nat)
    requires a != [] && b != [] && a[0] == b[0] && i > 0
    ensures FirstDiffers(a, b, i) <==> FirstDiffers(a[1..], b[1..], i - 1)
  {
    if i <= |a| && i <= |b| {
      assert a[..i] == [a[0]] + a[1..][..i - 1] && b[..i] == [b[0]] + b[1..][..i - 1];
      assert a[1..][..i - 1] == a[..i][1..] && b[1..][..i - 1] == b[..i][1..];
    }
  }

  lemma {:induction false} LeqExactly(a: string, b: string)
    ensures Leq(a, b) <==> Before(a, b)
  {
    if a != [] && b != [] {
      if a[0] == b[0] {
        LeqExactly(a[1..], b[1..]);
        BeforeTail(a, b);
      } else {
        assert FirstDiffers(a, b, 0);
        assert Before(a, b) ==> a[0] < b[0];
      }
    }
  }

  predicate FirstDiffers(a: string, b: string, i: nat) {
    i < |a| && i < |b| && a[..i] == b[..i] && a[i] != b[i]
  }

  ghost predicate Sorted(xs: seq<string>) {
    forall i, j :: 0 <= i <= j < |xs| ==> Leq(xs[i], xs[j])
  }

  ghost predicate StrictlySorted(xs: seq<string>) {
    Sorted(xs) && NoRepeats(xs)
  }

  ghost predicate NoRepeats(xs: seq<string>) {
    forall i, j :: 0 <= i < j < |xs| ==> xs[i] != xs[j]
  }

  function Elements(xs: seq<string>): set<string> {
    set x | x in xs
  }

  lemma ElementsCons(x: string, xs: seq<string>)
    ensures Elements([x] + xs) == {x} + Elements(xs)
  {}

  function Insert(x: string, xs: seq<string>): (r: seq<string>)
    requires Sorted(xs)
    ensures Sorted(r) && multiset(r) == multiset(xs) + multiset{x}
  {
    if xs == [] then
      LeqTotal(x, x);
      [x]
    else if Leq(x, xs[0]) then
      InsertFirst(x, xs);
      [x] + xs
    else
      assert xs == [xs[0]] + xs[1..];
      var rest := Insert(x, xs[1..]);
      LeqTotal(x, xs[0]);
      InsertLater(xs[0], rest, multiset(xs[1..]) + multiset{x});
      [xs[0]] + rest
  }

  lemma InsertFirst(x: string, xs: seq<string>)
    requires Sorted(xs) && xs != [] && Leq(x, xs[0])
    ensures Sorted([x] + xs) && multiset([x] + xs) == multiset(xs) + multiset{x}
  {
    LeqTotal(x, x);
    forall j | 0 <= j < |xs| ensures Leq(x, xs[j]) {
      LeqTrans(x, xs[0], xs[j]);
    }
  }

  lemma InsertLater(x: string, rest: seq<string>, elements: multiset<string>)
    requires Sorted(rest) && multiset(rest) == elements && forall y <- elements :: Leq(x, y)
    ensures Sorted([x] + rest)
  {
    LeqTotal(x, x);
    forall j | 0 <= j < |rest| ensures Leq(x, rest[j]) {
      assert rest[j] in multiset(rest);
    }
  }

  /** What any sorting routine returns, see `SortedUnique`. */
  function Sort(xs: seq<string>): (r: seq<string>)
    ensures Sorted(r) && multiset(r) == multiset(xs)
  {
    if xs == [] then []
    else
      assert xs == xs[..|xs| - 1] + [xs[|xs| - 1]];
      Insert(xs[|xs| - 1], Sort(xs[..|xs| - 1]))
  }

  /** Two sorted sequences with the same elements, repetitions counted, are the same sequence. */
  lemma {:induction false} SortedUnique(a: seq<string>, b: seq<string>)
    requires Sorted(a) && Sorted(b) && multiset(a) == multiset(b)
    ensures a == b
  {
    assert |a| == |multiset(a)| == |multiset(b)| == |b|;
    if a != [] {
      HeadIsLeast(a, b[0]);
      HeadIsLeast(b, a[0]);
      LeqTotal(a[0], b[0]);
      TailElements(a);
      TailElements(b);
      SortedUnique(a[1..], b[1..]);
    }
  }

  lemma HeadIsLeast(a: seq<string>, x: string)
    requires Sorted(a) && x in multiset(a)
    ensures Leq(a[0], x)
  {}

  lemma TailElements(a: seq<string>)
    requires a != []
    ensures multiset(a[1..]) == multiset(a) - multiset{a[0]}
    ensures a == [a[0]] + a[1..]
  {
    assert a == [a[0]] + a[1..];
  }

  /** Sorting tells exactly whether two lists hold the same names. */
  lemma SortDecides(a: seq<string>, b: seq<string>)
    ensures Sort(a) == Sort(b) <==> multiset(a) == multiset(b)
  {
    if multiset(a) == multiset(b) {
      SortedUnique(Sort(a), Sort(b));
    }
  }

  /** Keep the first of every run of equal neighbours. */
  function Dedup(xs: seq<string>): (r: seq<string>)
    ensures Elements(r) == Elements(xs) && |r| <= |xs|
  {
    if |xs| <= 1 then xs
    else if xs[0] == xs[1] then
      assert xs == [xs[0]] + xs[1..];
      Dedup(xs[1..])
    else
      assert xs == [xs[0]] + xs[1..];
      ElementsCons(xs[0], xs[1..]);
      ElementsCons(xs[0], Dedup(xs[1..]));
      [xs[0]] + Dedup(xs[1..])
  }

  lemma {:induction false} DedupSorted(xs: seq<string>)
    requires Sorted(xs)
    ensures StrictlySorted(Dedup(xs))
  {
    if |xs| > 1 {
      var rest := Dedup(xs[1..]);
      DedupSorted(xs[1..]);
      if xs[0] != xs[1] {
        forall j | 0 <= j < |rest| ensures Leq(xs[0], rest[j]) && xs[0] != rest[j] {
          assert rest[j] in Elements(rest);
          assert rest[j] in Elements(xs[1..]);
          var k :| 1 <= k < |xs| && xs[k] == rest[j];
          LeqTotal(xs[0], xs[1]);
          if xs[k] == xs[0] { assert Leq(xs[1], xs[k]); }
        }
        LeqTotal(xs[0], xs[0]);
      }
    }
  }

  /** A set has one strictly sorted enumeration. */
  lemma {:induction false} StrictlySortedUnique(a: seq<string>, b: seq<string>)
    requires StrictlySorted(a) && StrictlySorted(b) && Elements(a) == Elements(b)
    ensures a == b
  {
    assert a != [] ==> a[0] in Elements(a);
    assert b != [] ==> b[0] in Elements(b);
    if a != [] && b != [] {
      assert a[0] in Elements(b) && b[0] in Elements(a);
      var i :| 0 <= i < |b| && b[i] == a[0];
      var j :| 0 <= j < |a| && a[j] == b[0];
      LeqTotal(a[0], b[0]);
      assert Leq(b[0], b[i]) && Leq(a[0], a[j]);
      assert Elements(a[1..]) == Elements(a) - {a[0]};
      assert Elements(b[1..]) == Elements(b) - {b[0]};
      StrictlySortedUnique(a[1..], b[1..]);
    }
  }

  lemma {:induction false} LeastExists(s: set<string>)
    requires s != {}
    ensures exists m :: m in s && IsLeast(m, s)
  {
    var y :| y in s;
    LeqTotal(y, y);
    if s != {y} {
      var rest := s - {y};
      assert s == rest + {y};
      LeastExists(rest);
      var m :| m in rest && forall x <- rest :: Leq(m, x);
      LeqTotal(m, y);
      var least := if Leq(m, y) then m else y;
      forall x <- s ensures Leq(least, x) {
        if x != y { LeqTrans(least, m, x); }
      }
    }
  }

  predicate IsLeast(m: string, s: set<string>) {
    m in s && forall x <- s :: Leq(m, x)
  }

  lemma LeastUnique(s: set<string>, a: string, b: string)
    requires IsLeast(a, s) && IsLeast(b, s)
    ensures a == b
  {
    LeqTotal(a, b);
  }

  function Least(s: set<string>): (m: string)
    requires s != {}
    ensures m in s && forall x <- s :: Leq(m, x)
  {
    LeastExists(s);
    assert forall a, b :: IsLeast(a, s) && IsLeast(b, s) ==> a == b by {
      forall a, b | IsLeast(a, s) && IsLeast(b, s) ensures a == b { LeastUnique(s, a, b); }
    }
    var m :| m in s && IsLeast(m, s);
    m
  }

  /** The order in which an ordered map yields its keys. */
  function InOrder(s: set<string>): (r: seq<string>)
    ensures StrictlySorted(r) && Elements(r) == s
  {
    if s == {} then []
    else
      var m := Least(s);
      var rest := InOrder(s - {m});
      assert Leq(m, m) by { LeqTotal(m, m); }
      assert forall j :: 0 <= j < |rest| ==> rest[j] in Elements(rest);
      ElementsCons(m, rest);
      [m] + rest
  }

  lemma InElements(xs: seq<string>)
    ensures forall x :: x in Elements(xs) <==> x in xs
  {}
}
