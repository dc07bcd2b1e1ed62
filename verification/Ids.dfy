/** Identifiers ordered as text, and the least one of a set. */
module Ids {

  /** Lexicographic order by code point, as the built-in string comparison. */
  predicate Le(a: string, b: string) {
    a == [] || (b != [] && (a[0] < b[0] || (a[0] == b[0] && Le(a[1..], b[1..]))))
  }

  lemma {:induction false} LeReflexive(a: string)
    ensures Le(a, a)
  {
    if a != [] {
      LeReflexive(a[1..]);
    }
  }

  lemma {:induction false} LeTotal(a: string, b: string)
    ensures Le(a, b) || Le(b, a)
  {
    if a != [] && b != [] {
      LeTotal(a[1..], b[1..]);
    }
  }

  lemma {:induction false} LeAntisymmetric(a: string, b: string)
    requires Le(a, b) && Le(b, a)
    ensures a == b
  {
    if a != [] {
      LeAntisymmetric(a[1..], b[1..]);
      assert a == [a[0]] + a[1..] && b == [b[0]] + b[1..];
    }
  }

  lemma {:induction false} LeTransitive(a: string, b: string, c: string)
    requires Le(a, b) && Le(b, c)
    ensures Le(a, c)
  {
    if a != [] && b[0] == a[0] && c[0] == b[0] {
      LeTransitive(a[1..], b[1..], c[1..]);
    }
  }

  /** The texts agree up to position `i`, where the first has the smaller character. */
  predicate LessAt(a: string, b: string, i: nat) {
    i < |a| && i < |b| && a[..i] == b[..i] && a[i] < b[i]
  }

  /** One text is a prefix of the other, or the first difference decides. */
  lemma {:induction false} LeByFirstDifference(a: string, b: string)
    ensures Le(a, b) <==> a <= b || exists i: nat :: LessAt(a, b, i)
  {
    if a != [] && b != [] && a[0] == b[0] {
      LeByFirstDifference(a[1..], b[1..]);
      assert a == [a[0]] + a[1..] && b == [b[0]] + b[1..];
      if i: nat :| LessAt(a[1..], b[1..], i) {
        assert a[..i + 1] == [a[0]] + a[1..][..i] && b[..i + 1] == [b[0]] + b[1..][..i];
        assert LessAt(a, b, i + 1);
      }
      if i: nat :| LessAt(a, b, i) {
        assert i > 0;
        assert a[1..][..i - 1] == a[..i][1..] && b[1..][..i - 1] == b[..i][1..];
        assert LessAt(a[1..], b[1..], i - 1);
      }
    } else if a != [] && b != [] {
      assert a[0] < b[0] ==> LessAt(a, b, 0);
      assert forall i: nat | LessAt(a, b, i) :: i > 0 ==> a[..i][0] == b[..i][0];
    }
  }

  predicate IsLeast(m: string, ids: set<string>) {
    m in ids && forall x | x in ids :: Le(m, x)
  }

  lemma {:induction false} LeastExists(ids: set<string>) returns (m: string)
    requires ids != {}
    ensures IsLeast(m, ids)
    decreases |ids|
  {
    var x :| x in ids;
    LeReflexive(x);
    var rest := ids - {x};
    assert forall y | y in ids :: y == x || y in rest;
    if rest == {} {
      return x;
    }
    m := LeastExists(rest);
    LeTotal(x, m);
    if Le(x, m) {
      forall y | y in rest ensures Le(x, y) {
        LeTransitive(x, m, y);
      }
      return x;
    }
  }

  lemma {:induction false} LeastUnique(ids: set<string>)
    ensures forall a, b | IsLeast(a, ids) && IsLeast(b, ids) :: a == b
  {
    forall a, b | IsLeast(a, ids) && IsLeast(b, ids) ensures a == b {
      LeAntisymmetric(a, b);
    }
  }

  function Least(ids: set<string>): (m: string)
    requires ids != {}
    ensures IsLeast(m, ids)
  {
    LeastIsThere(ids);
    LeastUnique(ids);
    var m :| m in ids && IsLeast(m, ids);
    m
  }

  lemma {:induction false} LeastIsThere(ids: set<string>)
    requires ids != {}
    ensures exists m :: IsLeast(m, ids)
  {
    var m := LeastExists(ids);
  }

  /** `sorted`: the ids of a set in ascending order. */
  function Ascending(ids: set<string>): (sorted: seq<string>)
    ensures forall x :: x in sorted <==> x in ids
    decreases |ids|
  {
    if ids == {} then []
    else
      var rest := Ascending(ids - {Least(ids)});
      [Least(ids)] + rest
  }

  lemma {:induction false} AscendingOrder(ids: set<string>, i: nat, j: nat)
    requires i < j < |Ascending(ids)|
    ensures Le(Ascending(ids)[i], Ascending(ids)[j]) && Ascending(ids)[i] != Ascending(ids)[j]
    decreases |ids|
  {
    var rest := Ascending(ids - {Least(ids)});
    assert Ascending(ids)[j] == rest[j - 1];
    assert rest[j - 1] in rest;
    if i > 0 {
      AscendingOrder(ids - {Least(ids)}, i - 1, j - 1);
    }
  }

  /** The first id in ascending order that is in `wanted` is the least one wanted. */
  lemma {:induction false} FirstIsLeast(ids: set<string>, wanted: set<string>, i: nat)
    requires wanted <= ids && i < |Ascending(ids)| && Ascending(ids)[i] in wanted
    requires forall j | 0 <= j < i :: Ascending(ids)[j] !in wanted
    ensures Least(wanted) == Ascending(ids)[i]
  {
    var m := Ascending(ids)[i];
    forall x | x in wanted ensures Le(m, x) {
      assert x in Ascending(ids);
      var j :| 0 <= j < |Ascending(ids)| && Ascending(ids)[j] == x;
      LeReflexive(x);
      if i < j {
        AscendingOrder(ids, i, j);
      }
    }
    LeastUnique(wanted);
    assert IsLeast(m, wanted);
  }
}
