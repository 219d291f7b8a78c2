/** Text in the order the program sorts it, and sorted walks over sets of keys. */
module Ordering {

  predicate Less(a: string, b: string) {
    |b| > 0 && (|a| == 0 || a[0] < b[0] || (a[0] == b[0] && Less(a[1..], b[1..])))
  }

  lemma {:induction false} LessIrreflexive(a: string)
    ensures !Less(a, a)
  {
    if |a| > 0 {
      LessIrreflexive(a[1..]);
    }
  }

  lemma {:induction false} LessTransitive(a: string, b: string, c: string)
    requires Less(a, b) && Less(b, c)
    ensures Less(a, c)
  {
    if |a| > 0 && a[0] == b[0] == c[0] {
      LessTransitive(a[1..], b[1..], c[1..]);
    }
  }

  lemma {:induction false} LessTotal(a: string, b: string)
    ensures Less(a, b) || Less(b, a) || a == b
  {
    if |a| > 0 && |b| > 0 && a[0] == b[0] {
      LessTotal(a[1..], b[1..]);
      assert a == [a[0]] + a[1..] && b == [b[0]] + b[1..];
    }
  }

  lemma LessAsymmetric(a: string, b: string)
    requires Less(a, b)
    ensures !Less(b, a)
  {
    if Less(b, a) {
      LessTransitive(a, b, a);
      LessIrreflexive(a);
    }
  }

  ghost predicate IsLeast(x: string, s: set<string>) {
    x in s && forall y <- s :: y == x || Less(x, y)
  }

  lemma {:induction false} LeastExists(s: set<string>)
    requires s != {}
    ensures exists x :: IsLeast(x, s)
    decreases |s|
  {
    var y :| y in s;
    if s == {y} {
      assert IsLeast(y, s);
    } else {
      LeastExists(s - {y});
      var x :| IsLeast(x, s - {y});
      LessTotal(x, y);
      if Less(x, y) {
        assert IsLeast(x, s);
      } else {
        forall z <- s
          ensures z == y || Less(y, z)
        {
          if z != y && z != x {
            LessTransitive(y, x, z);
          }
        }
        assert IsLeast(y, s);
      }
    }
  }

  lemma LeastUnique(x: string, y: string, s: set<string>)
    requires IsLeast(x, s) && IsLeast(y, s)
    ensures x == y
  {
    if x != y {
      LessAsymmetric(x, y);
    }
  }

  /** The keys of a set in ascending order. */
  ghost function Ascending(s: set<string>): (r: seq<string>)
    ensures |r| == |s|
    ensures forall x :: x in r <==> x in s
    decreases |s|
  {
    if s == {} then [] else
      LeastExists(s);
      var x :| IsLeast(x, s);
      [x] + Ascending(s - {x})
  }

  method Sort(s: set<string>) returns (r: seq<string>)
    ensures r == Ascending(s)
  {
    r := [];
    var rest := s;
    while rest != {}
      invariant rest <= s
      invariant r + Ascending(rest) == Ascending(s)
      decreases |rest|
    {
      hide Less;
      LeastExists(rest);
      var x := Least(rest);
      ghost var least :| IsLeast(least, rest) && Ascending(rest) == [least] + Ascending(rest - {least});
      LeastUnique(x, least, rest);
      r := r + [x];
      rest := rest - {x};
    }
  }

  method Least(s: set<string>) returns (x: string)
    requires s != {}
    ensures IsLeast(x, s)
  {
    x :| x in s;
    var rest := s - {x};
    while rest != {}
      invariant rest <= s && x in s && x !in rest
      invariant forall y <- s - rest :: y == x || Less(x, y)
      decreases |rest|
    {
      var y :| y in rest;
      LessTotal(x, y);
      if Less(y, x) {
        forall z <- s - rest
          ensures Less(y, z)
        {
          if z != x {
            LessTransitive(y, x, z);
          }
        }
        x := y;
      }
      rest := rest - {y};
    }
  }

  lemma AscendingStep(s: set<string>) returns (x: string)
    requires s != {}
    ensures x in s && Ascending(s) == [x] + Ascending(s - {x}) && |s - {x}| == |s| - 1
    ensures forall y <- s - {x} :: Less(x, y)
  {
    hide Less;
    LeastExists(s);
    x :| IsLeast(x, s) && Ascending(s) == [x] + Ascending(s - {x});
  }

  lemma {:induction false} AscendingSorted(s: set<string>, i: nat, j: nat)
    requires i < j < |s|
    ensures Less(Ascending(s)[i], Ascending(s)[j])
    decreases |s|
  {
    hide Less, Ascending;
    var x := AscendingStep(s);
    var rest := Ascending(s - {x});
    if i == 0 {
      assert rest[j - 1] in rest;
    } else {
      AscendingSorted(s - {x}, i - 1, j - 1);
    }
  }
}
