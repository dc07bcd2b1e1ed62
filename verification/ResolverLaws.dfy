/** What a resolution means, read off the extensions themselves. */
module ResolverLaws {
  import opened Ids
  import opened Resolver

  // --------------------------------------------------------------- distinct extensions

  /** No id occurs at two positions. */
  predicate DistinctIds<T>(extensions: seq<Extension<T>>) {
    forall i, j | 0 <= i < j < |extensions| :: extensions[i].id != extensions[j].id
  }

  lemma {:induction false} CountSplits(ids: seq<string>, i: nat, id: string)
    requires i < |ids|
    ensures multiset(ids)[id] == multiset(ids[..i])[id] + (if ids[i] == id then 1 else 0) + multiset(ids[i + 1..])[id]
  {
    assert ids == ids[..i] + [ids[i]] + ids[i + 1..];
  }

  /** An id is repeated exactly if two positions hold it. */
  lemma {:induction false} RepeatedIsTwice<T>(extensions: seq<Extension<T>>, id: string)
    ensures id in Repeated(extensions) <==>
            exists i, j :: 0 <= i < j < |extensions| && extensions[i].id == id && extensions[j].id == id
  {
    var ids := IdsOf(extensions);
    if id in Repeated(extensions) {
      var i :| 0 <= i < |ids| && ids[i] == id;
      CountSplits(ids, i, id);
      if id in ids[..i] {
        var k :| 0 <= k < i && ids[..i][k] == id;
        assert extensions[k].id == id && extensions[i].id == id;
      } else {
        var k :| 0 <= k < |ids| - i - 1 && ids[i + 1..][k] == id;
        assert extensions[i].id == id && extensions[i + 1 + k].id == id;
      }
    }
    if i, j :| 0 <= i < j < |extensions| && extensions[i].id == id && extensions[j].id == id {
      CountSplits(ids, i, id);
      assert ids[i + 1..][j - i - 1] == id;
    }
  }

  lemma {:induction false} UnrepeatedIsDistinct<T>(extensions: seq<Extension<T>>)
    ensures Repeated(extensions) == {} <==> DistinctIds(extensions)
  {
    if Repeated(extensions) == {} {
      forall i, j | 0 <= i < j < |extensions| ensures extensions[i].id != extensions[j].id {
        RepeatedIsTwice(extensions, extensions[i].id);
      }
    } else {
      var id :| id in Repeated(extensions);
      RepeatedIsTwice(extensions, id);
    }
  }

  lemma {:induction false} FirstIsOnly<T>(extensions: seq<Extension<T>>, e: Extension<T>)
    requires DistinctIds(extensions) && e in extensions
    ensures e.id in IdsOf(extensions) && First(extensions, e.id) == e
  {
    var k :| 0 <= k < |extensions| && extensions[k] == e;
    assert IdsOf(extensions)[k] == e.id;
    var found := First(extensions, e.id);
    var j :| 0 <= j < |extensions| && extensions[j] == found;
    assert j == k;
  }

  /** Without repeats, equal elements mean equal multisets. */
  lemma {:induction false} SameElements<T>(a: seq<Extension<T>>, b: seq<Extension<T>>)
    requires DistinctIds(a) && DistinctIds(b)
    requires forall e :: e in a <==> e in b
    ensures multiset(a) == multiset(b)
  {
    forall e ensures multiset(a)[e] == multiset(b)[e] {
      OnceAtMost(a, e);
      OnceAtMost(b, e);
      assert (e in multiset(a) <==> e in a) && (e in multiset(b) <==> e in b);
    }
  }

  lemma {:induction false} OnceAtMost<T>(a: seq<Extension<T>>, e: Extension<T>)
    requires DistinctIds(a)
    ensures multiset(a)[e] <= 1
  {
    if e in a {
      var k :| 0 <= k < |a| && a[k] == e;
      assert a == a[..k] + [a[k]] + a[k + 1..];
      assert e !in a[..k] && e !in a[k + 1..];
    }
  }

  // ------------------------------------------------------------------------ success

  /** Each extension comes after everything it requires. */
  predicate RequirementsFirst<T>(order: seq<Extension<T>>) {
    forall i | 0 <= i < |order| :: RequiredBefore(order, i)
  }

  predicate RequiredBefore<T>(order: seq<Extension<T>>, i: int)
    requires 0 <= i < |order|
  {
    forall r | r in order[i].requirements :: exists j :: 0 <= j < i && order[j].id == r
  }

  lemma {:induction false} PickedIds<T>(extensions: seq<Extension<T>>, ids: seq<string>)
    requires forall id | id in ids :: id in IdsOf(extensions)
    ensures IdsOf(Pick(extensions, ids)) == ids
  {
    var picked := Pick(extensions, ids);
    forall i | 0 <= i < |ids| ensures IdsOf(picked)[i] == ids[i] {
      assert ids[i] in ids;
    }
  }

  /** The facts behind a successful resolution. */
  lemma {:induction false} ResolvedFacts<T>(extensions: seq<Extension<T>>)
    requires Outcome(extensions).Resolved?
    ensures var g, order := GraphOf(extensions), Outcome(extensions).order;
            && DistinctIds(extensions) && Complete(g) && Topological(g, IdsOf(order))
            && IdsOf(order) == Greedy(g, []) && order == Pick(extensions, IdsOf(order))
  {
    var g := GraphOf(extensions);
    UnrepeatedIsDistinct(extensions);
    CompleteUnlessIncomplete(g);
    GreedySound(g, []);
    CompleteOutcome(extensions);
    PickedIds(extensions, Greedy(g, []));
    assert forall id | id in g.Keys :: id !in Unresolved(g);
  }

  /** Success: the same extensions, every one after its requirements. */
  lemma {:induction false} ResolvedIsSorted<T>(extensions: seq<Extension<T>>)
    requires Outcome(extensions).Resolved?
    ensures multiset(Outcome(extensions).order) == multiset(extensions)
    ensures RequirementsFirst(Outcome(extensions).order)
  {
    hide Outcome, Greedy, Complete, Ready;
    ResolvedFacts(extensions);
    var g, order := GraphOf(extensions), Outcome(extensions).order;
    var ids := IdsOf(order);
    ResolvedElements(extensions, order);
    SameElements(order, extensions);
    forall i | 0 <= i < |order| ensures RequiredBefore(order, i) {
      assert ids[i] in Elements(ids);
      forall r | r in order[i].requirements ensures exists j :: 0 <= j < i && order[j].id == r {
        assert r in g[ids[i]];
        var j :| 0 <= j < i && ids[..i][j] == r;
        assert order[j].id == r;
      }
    }
  }

  lemma {:induction false} ResolvedElements<T>(extensions: seq<Extension<T>>, order: seq<Extension<T>>)
    requires DistinctIds(extensions) && Topological(GraphOf(extensions), IdsOf(order))
    requires (forall id | id in IdsOf(order) :: id in IdsOf(extensions)) && order == Pick(extensions, IdsOf(order))
    ensures DistinctIds(order) && forall e :: e in order <==> e in extensions
  {
    var ids := IdsOf(order);
    assert forall i | 0 <= i < |order| :: order[i].id == ids[i] && order[i] == First(extensions, ids[i]);
    forall e | e in extensions ensures e in order {
      FirstIsOnly(extensions, e);
      assert e.id in Elements(ids);
      var i :| 0 <= i < |ids| && ids[i] == e.id;
      assert order[i] == e;
    }
  }

  /** Canonical: among all topological orders, the one with the lexicographically least ids. */
  lemma {:induction false} ResolvedIsLeast<T>(extensions: seq<Extension<T>>, other: seq<Extension<T>>)
    requires Outcome(extensions).Resolved?
    requires multiset(other) == multiset(extensions) && RequirementsFirst(other)
    ensures LexLe(IdsOf(Outcome(extensions).order), IdsOf(other))
  {
    hide Outcome, Greedy, Complete, Ready, Ordered;
    ResolvedFacts(extensions);
    OtherIsTopological(extensions, other);
    GreedyIsLeast(GraphOf(extensions), IdsOf(other));
  }

  lemma {:induction false} OtherIsTopological<T>(extensions: seq<Extension<T>>, other: seq<Extension<T>>)
    requires DistinctIds(extensions) && multiset(other) == multiset(extensions) && RequirementsFirst(other)
    ensures Topological(GraphOf(extensions), IdsOf(other))
  {
    var g, ids := GraphOf(extensions), IdsOf(other);
    PermutedIds(other, extensions);
    UnrepeatedIsDistinct(extensions);
    UnrepeatedIsDistinct(other);
    assert forall e :: e in other <==> e in multiset(other);
    assert forall e :: e in extensions <==> e in multiset(extensions);
    forall id ensures id in ids <==> id in g {
      assert id in ids <==> id in multiset(ids);
      assert id in IdsOf(extensions) <==> id in multiset(IdsOf(extensions));
    }
    forall i | 0 <= i < |ids| && ids[i] in g ensures g[ids[i]] <= Elements(ids[..i]) {
      assert other[i] in other;
      FirstIsOnly(extensions, other[i]);
      assert RequiredBefore(other, i);
      forall r | r in g[ids[i]] ensures r in ids[..i] {
        var j :| 0 <= j < i && other[j].id == r;
        assert ids[..i][j] == r;
      }
    }
  }

  /** The least topological order is unique. */
  lemma {:induction false} LexAntisymmetric(a: seq<string>, b: seq<string>)
    requires LexLe(a, b) && LexLe(b, a)
    ensures a == b
  {
    if a != [] {
      if a[0] == b[0] {
        LexAntisymmetric(a[1..], b[1..]);
        assert a == [a[0]] + a[1..] && b == [b[0]] + b[1..];
      } else {
        LeAntisymmetric(a[0], b[0]);
      }
    }
  }

  /** The sequences agree up to position `i`, where the first has the smaller id. */
  predicate LexLessAt(a: seq<string>, b: seq<string>, i: nat) {
    i < |a| && i < |b| && a[..i] == b[..i] && a[i] != b[i] && Le(a[i], b[i])
  }

  lemma {:induction false} LexByFirstDifference(a: seq<string>, b: seq<string>)
    ensures LexLe(a, b) <==> a <= b || exists i: nat :: LexLessAt(a, b, i)
  {
    if a != [] && b != [] && a[0] == b[0] {
      LexByFirstDifference(a[1..], b[1..]);
      assert a == [a[0]] + a[1..] && b == [b[0]] + b[1..];
      if i: nat :| LexLessAt(a[1..], b[1..], i) {
        assert a[..i + 1] == [a[0]] + a[1..][..i] && b[..i + 1] == [b[0]] + b[1..][..i];
        assert LexLessAt(a, b, i + 1);
      }
      if i: nat :| LexLessAt(a, b, i) {
        assert i > 0;
        assert a[1..][..i - 1] == a[..i][1..] && b[1..][..i - 1] == b[..i][1..];
        assert LexLessAt(a[1..], b[1..], i - 1);
      }
    } else if a != [] && b != [] {
      assert Le(a[0], b[0]) ==> LexLessAt(a, b, 0);
      assert forall i: nat | LexLessAt(a, b, i) :: i > 0 ==> a[..i][0] == b[..i][0];
    }
  }

  // ------------------------------------------------------------- independence of order

  lemma {:induction false} TakeOut<X>(xs: seq<X>, k: nat)
    requires k < |xs|
    ensures multiset(xs) == multiset(xs[..k] + xs[k + 1..]) + multiset{xs[k]}
  {
    assert xs == xs[..k] + [xs[k]] + xs[k + 1..];
  }

  lemma {:induction false} PermutedIds<T>(a: seq<Extension<T>>, b: seq<Extension<T>>)
    requires multiset(a) == multiset(b)
    ensures multiset(IdsOf(a)) == multiset(IdsOf(b))
    decreases |a|
  {
    hide IdsOf;
    if a == [] {
      assert |b| == |multiset(b)| == 0;
    } else {
      assert a[0] in multiset(b);
      var k :| 0 <= k < |b| && b[k] == a[0];
      var front, rest := a[..0] + a[1..], b[..k] + b[k + 1..];
      TakeOut(a, 0);
      TakeOut(b, k);
      Cancel(multiset(front), multiset(rest), a[0]);
      PermutedIds(front, rest);
      IdsWithout(a, 0);
      IdsWithout(b, k);
    }
  }

  lemma {:induction false} Cancel<X>(a: multiset<X>, b: multiset<X>, x: X)
    requires a + multiset{x} == b + multiset{x}
    ensures a == b
  {
    assert a == (a + multiset{x}) - multiset{x};
    assert b == (b + multiset{x}) - multiset{x};
  }

  lemma {:induction false} IdsWithout<T>(a: seq<Extension<T>>, k: nat)
    requires k < |a|
    ensures multiset(IdsOf(a)) == multiset(IdsOf(a[..k] + a[k + 1..])) + multiset{a[k].id}
  {
    TakeOut(IdsOf(a), k);
    assert IdsOf(a)[..k] + IdsOf(a)[k + 1..] == IdsOf(a[..k] + a[k + 1..]);
  }

  lemma {:induction false} PermutedGraph<T>(a: seq<Extension<T>>, b: seq<Extension<T>>)
    requires multiset(a) == multiset(b) && DistinctIds(a) && DistinctIds(b)
    ensures GraphOf(a) == GraphOf(b)
    ensures forall id | id in IdsOf(a) :: id in IdsOf(b) && First(a, id) == First(b, id)
  {
    PermutedIds(a, b);
    assert forall id :: id in IdsOf(a) <==> id in multiset(IdsOf(a));
    assert forall id :: id in IdsOf(b) <==> id in multiset(IdsOf(b));
    forall id | id in IdsOf(a) ensures First(a, id) == First(b, id) {
      var e := First(a, id);
      assert e in multiset(a);
      FirstIsOnly(b, e);
    }
  }

  /** The outcome, errors included, depends only on which extensions there are. */
  lemma {:induction false} OutcomeIgnoresOrder<T>(a: seq<Extension<T>>, b: seq<Extension<T>>)
    requires multiset(a) == multiset(b)
    ensures Outcome(a) == Outcome(b)
  {
    hide Outcome, Greedy, Lasso, Ready, IsLeast, Pick, GraphOf, Incomplete;
    PermutedRepeats(a, b);
    FaultyOutcome(a);
    FaultyOutcome(b);
    if Repeated(a) == {} {
      UnrepeatedIsDistinct(a);
      UnrepeatedIsDistinct(b);
      PermutedGraph(a, b);
      if Incomplete(GraphOf(a)) == {} {
        CompleteOutcome(a);
        CompleteOutcome(b);
        PermutedPick(a, b, Greedy(GraphOf(a), []));
      }
    }
  }

  lemma {:induction false} PermutedRepeats<T>(a: seq<Extension<T>>, b: seq<Extension<T>>)
    requires multiset(a) == multiset(b)
    ensures Repeated(a) == Repeated(b)
  {
    PermutedIds(a, b);
    assert forall id :: id in IdsOf(a) <==> id in multiset(IdsOf(a));
    assert forall id :: id in IdsOf(b) <==> id in multiset(IdsOf(b));
  }

  lemma {:induction false} PermutedPick<T>(a: seq<Extension<T>>, b: seq<Extension<T>>, ids: seq<string>)
    requires multiset(a) == multiset(b) && DistinctIds(a) && DistinctIds(b)
    requires forall id | id in ids :: id in IdsOf(a) && id in IdsOf(b)
    ensures Pick(a, ids) == Pick(b, ids)
  {
    PermutedGraph(a, b);
  }

  // -------------------------------------------------------------------------- errors

  /** A duplicate error names the least id held by two extensions, and there is one exactly then. */
  lemma {:induction false} DuplicateIsLeast<T>(extensions: seq<Extension<T>>)
    ensures Outcome(extensions).Duplicate? <==> !DistinctIds(extensions)
    ensures Outcome(extensions).Duplicate? ==>
              && !AtMostOneHolds(extensions, Outcome(extensions).id)
              && forall id | !AtMostOneHolds(extensions, id) :: Le(Outcome(extensions).id, id)
  {
    UnrepeatedIsDistinct(extensions);
    forall id ensures id in Repeated(extensions) <==> !AtMostOneHolds(extensions, id) {
      RepeatedIsTwice(extensions, id);
    }
  }

  /** At most one extension holds `id`. */
  predicate AtMostOneHolds<T>(extensions: seq<Extension<T>>, id: string) {
    forall i, j | 0 <= i < j < |extensions| :: !(extensions[i].id == id && extensions[j].id == id)
  }

  /** Extension `e` requires something that is not there. */
  ghost predicate Lacks<T>(extensions: seq<Extension<T>>, e: Extension<T>, r: string) {
    e in extensions && r in e.requirements && r !in IdsOf(extensions)
  }

  /**
    A missing-dependency error comes only without duplicates, and exactly if something required is
    not there; it names the least extension lacking something and the least thing it lacks.
   */
  lemma {:induction false} MissingIsLeast<T>(extensions: seq<Extension<T>>)
    ensures Outcome(extensions).Missing? <==>
            DistinctIds(extensions) && exists e, r :: Lacks(extensions, e, r)
    ensures Outcome(extensions).Missing? ==>
              && (exists e :: Lacks(extensions, e, Outcome(extensions).required) && e.id == Outcome(extensions).id)
              && (forall e, r | Lacks(extensions, e, r) ::
                    Le(Outcome(extensions).id, e.id) && (e.id == Outcome(extensions).id ==> Le(Outcome(extensions).required, r)))
  {
    hide Greedy, Lasso, Ready, Outcome;
    var g := GraphOf(extensions);
    UnrepeatedIsDistinct(extensions);
    FaultyOutcome(extensions);
    if Repeated(extensions) == {} {
      LackingIsIncomplete(extensions);
      if Incomplete(g) == {} {
        CompleteOutcome(extensions);
      }
    }
  }

  lemma {:induction false} LackingIsIncomplete<T>(extensions: seq<Extension<T>>)
    requires DistinctIds(extensions)
    ensures var g := GraphOf(extensions);
            && (forall e, r | Lacks(extensions, e, r) :: e.id in Incomplete(g) && r in g[e.id] - g.Keys)
            && (forall id, r | id in Incomplete(g) && r in g[id] - g.Keys :: Lacks(extensions, First(extensions, id), r))
  {
    var g := GraphOf(extensions);
    forall e, r | Lacks(extensions, e, r) ensures e.id in Incomplete(g) && r in g[e.id] - g.Keys {
      FirstIsOnly(extensions, e);
      assert g[e.id] == Elements(e.requirements);
      assert r in g[e.id] && r !in g.Keys;
    }
  }

  /**
    A cycle is reported exactly if nothing is duplicate or missing and the requirements have one;
    what is reported is a simple closed path of unresolved ids, each naming its least unresolved requirement.
   */
  lemma {:induction false} CycleIsExact<T>(extensions: seq<Extension<T>>)
    ensures Outcome(extensions).Cyclic? <==>
            && Repeated(extensions) == {} && Complete(GraphOf(extensions))
            && exists cycle :: IsCycle(GraphOf(extensions), cycle)
    ensures Outcome(extensions).Cyclic? ==>
              Reported(GraphOf(extensions), Unresolved(GraphOf(extensions)), Outcome(extensions).cycle)
  {
    hide Greedy, Ready, IsLeast, Reported, Outcome, Incomplete, Complete, Repeated, GraphOf, Lasso, IsCycle, Unresolved;
    var g := GraphOf(extensions);
    CompleteUnlessIncomplete(g);
    FaultyOutcome(extensions);
    if Repeated(extensions) == {} && Complete(g) {
      CompleteOutcome(extensions);
      if Unresolved(g) != {} {
        UnresolvedLasso(g);
        ReportedIsCycle(g, Unresolved(g), Outcome(extensions).cycle);
      } else {
        AllOrderedNoCycle(g);
      }
    }
  }

  lemma {:induction false} UnresolvedLasso(g: Graph)
    requires Stuck(g, Unresolved(g)) && Unresolved(g) != {}
    ensures Reported(g, Unresolved(g), Lasso(g, Unresolved(g), [], Least(Unresolved(g))))
  {
    hide Greedy, Reported;
    LassoIsReported(g, Unresolved(g), [], Least(Unresolved(g)));
  }

  /** An id is left over exactly if no order that respects requirements has room for it. */
  lemma {:induction false} UnresolvedExactly(g: Graph, id: string)
    ensures id in Unresolved(g) <==> id in g && forall order | Ordered(g, order) :: id !in order
  {
    GreedySound(g, []);
    var greedy := Greedy(g, []);
    if id in Unresolved(g) {
      forall order | Ordered(g, order) ensures id !in order {
        OrderedIsResolved(g, order, greedy, |order|);
        assert order[..|order|] == order;
        assert id in order ==> id in Elements(order);
      }
    }
    assert id in greedy <==> id in Elements(greedy);
  }

  lemma {:induction false} OrderedIsResolved(g: Graph, order: seq<string>, done: seq<string>, n: nat)
    requires Ordered(g, order) && Ready(g, done) == {} && n <= |order|
    ensures Elements(order[..n]) <= Elements(done)
  {
    if n > 0 {
      OrderedIsResolved(g, order, done, n - 1);
      assert order[n - 1] in Elements(order);
      assert order[n - 1] !in Ready(g, done);
      assert order[..n] == order[..n - 1] + [order[n - 1]];
    }
  }

  /** A path without repeats from the least unresolved id, each id naming its least unresolved requirement. */
  predicate LeastPath(g: Graph, unresolved: set<string>, path: seq<string>) {
    && NoRepeats(path) && path != [] && IsLeast(path[0], unresolved)
    && forall i | 0 <= i < |path| - 1 :: path[i] in g && IsLeast(path[i + 1], g[path[i]] * unresolved)
  }

  /** The path's last id requires next the id at `k`, and the cycle is the path from there, closed. */
  predicate ClosedAt(g: Graph, unresolved: set<string>, path: seq<string>, k: nat, cycle: seq<string>) {
    && k < |path| && path[|path| - 1] in g
    && IsLeast(path[k], g[path[|path| - 1]] * unresolved)
    && cycle == path[k..] + [path[k]]
  }

  /** Which cycle is reported: the one closed by following least unresolved requirements from the least unresolved id. */
  lemma {:induction false} CycleIsFirstMet<T>(extensions: seq<Extension<T>>)
    requires Outcome(extensions).Cyclic?
    ensures var g := GraphOf(extensions);
            exists path, k: nat ::
              LeastPath(g, Unresolved(g), path) && ClosedAt(g, Unresolved(g), path, k, Outcome(extensions).cycle)
  {
    hide Greedy, Ready, Outcome, GraphOf, Repeated, LeastPath, ClosedAt;
    var g := GraphOf(extensions);
    CompleteUnlessIncomplete(g);
    FaultyOutcome(extensions);
    CompleteOutcome(extensions);
    LassoStarts(g, Unresolved(g));
  }

  lemma {:induction false} LassoStarts(g: Graph, unresolved: set<string>)
    requires unresolved <= g.Keys && Stuck(g, unresolved) && unresolved != {}
    ensures exists path, k: nat :: LeastPath(g, unresolved, path)
                                   && ClosedAt(g, unresolved, path, k, Lasso(g, unresolved, [], Least(unresolved)))
  {
    var path, k := LassoPath(g, unresolved, [], Least(unresolved));
  }

  /** `path`, if begun, is such a path, and `id` is what it leads to next. */
  predicate LeadsTo(g: Graph, unresolved: set<string>, path: seq<string>, id: string) {
    if path == [] then IsLeast(id, unresolved)
    else
      && LeastPath(g, unresolved, path)
      && path[|path| - 1] in g && IsLeast(id, g[path[|path| - 1]] * unresolved)
  }

  lemma {:induction false} LassoPath(g: Graph, unresolved: set<string>, path: seq<string>, id: string) returns (all: seq<string>, k: nat)
    requires unresolved <= g.Keys && Stuck(g, unresolved) && id in unresolved && Elements(path) <= unresolved
    requires LeadsTo(g, unresolved, path, id)
    ensures LeastPath(g, unresolved, all) && ClosedAt(g, unresolved, all, k, Lasso(g, unresolved, path, id))
    decreases |unresolved - Elements(path)|
  {
    hide LeastPath, ClosedAt, IsLeast, LeadsTo;
    if id in path {
      all, k := path, IndexOf(path, id);
      PathCloses(g, unresolved, path, id);
    } else {
      PathGrows(unresolved, path, id);
      PathLeadsOn(g, unresolved, path, id);
      all, k := LassoPath(g, unresolved, path + [id], Least(g[id] * unresolved));
    }
  }

  lemma {:induction false} PathCloses(g: Graph, unresolved: set<string>, path: seq<string>, id: string)
    requires id in path && LeadsTo(g, unresolved, path, id)
    ensures LeastPath(g, unresolved, path)
    ensures ClosedAt(g, unresolved, path, IndexOf(path, id), path[IndexOf(path, id)..] + [id])
  {
  }

  lemma {:induction false} PathLeadsOn(g: Graph, unresolved: set<string>, path: seq<string>, id: string)
    requires id in g && g[id] * unresolved != {} && id !in path && LeadsTo(g, unresolved, path, id)
    ensures LeadsTo(g, unresolved, path + [id], Least(g[id] * unresolved))
  {
    hide IsLeast;
    var more := path + [id];
    forall i | 0 <= i < |more| - 1 ensures more[i] in g && IsLeast(more[i + 1], g[more[i]] * unresolved) {
      if i < |path| - 1 {
        assert path[i] in g && IsLeast(path[i + 1], g[path[i]] * unresolved);
      }
    }
  }

  lemma {:induction false} ReportedIsCycle(g: Graph, unresolved: set<string>, cycle: seq<string>)
    requires Reported(g, unresolved, cycle)
    ensures IsCycle(g, cycle)
  {
  }

  lemma {:induction false} AllOrderedNoCycle(g: Graph)
    requires Unresolved(g) == {}
    ensures forall cycle :: !IsCycle(g, cycle)
  {
    forall cycle ensures !IsCycle(g, cycle) {
      if IsCycle(g, cycle) {
        CycleStaysUnresolved(g, cycle);
      }
    }
  }

  lemma {:induction false} CycleStaysUnresolved(g: Graph, cycle: seq<string>)
    requires IsCycle(g, cycle)
    ensures Unresolved(g) != {}
  {
    GreedySound(g, []);
    CycleIsNeverOrdered(g, cycle, Greedy(g, []), 0);
    assert cycle[0] in Unresolved(g);
  }
}
