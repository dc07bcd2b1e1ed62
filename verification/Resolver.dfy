/**
  Dependency resolution (extensions.py): what a list of extensions resolves to, the resolver
  that works it out in place, and the laws of the result.
 */
module Resolver {
  import opened Messages
  import opened Ids

  /** `requirements` are the ids it needs installed first; `body` is what the host makes of it. */
  datatype Extension<+T> = Extension(id: string, requirements: seq<string>, body: T)

  datatype Resolution<+T> =
    | Duplicate(id: string)
    | Missing(id: string, required: string)
    | Cyclic(cycle: seq<string>)
    | Resolved(order: seq<Extension<T>>)

  /** Each id with the ids it requires. */
  type Graph = map<string, set<string>>

  function Elements(ids: seq<string>): set<string> {
    set id | id in ids
  }

  predicate NoRepeats(ids: seq<string>) {
    forall i, j | 0 <= i < j < |ids| :: ids[i] != ids[j]
  }

  // ------------------------------------------------------------ the specification

  function IdsOf<T>(extensions: seq<Extension<T>>): seq<string> {
    seq(|extensions|, i requires 0 <= i < |extensions| => extensions[i].id)
  }

  /** The ids that occur more than once. */
  function Repeated<T>(extensions: seq<Extension<T>>): set<string> {
    set id | id in IdsOf(extensions) && multiset(IdsOf(extensions))[id] > 1
  }

  function GraphOf<T>(extensions: seq<Extension<T>>): Graph {
    map id | id in IdsOf(extensions) :: Elements(First(extensions, id).requirements)
  }

  /** The first extension with this id. */
  function First<T>(extensions: seq<Extension<T>>, id: string): (e: Extension<T>)
    requires id in IdsOf(extensions)
    ensures e in extensions && e.id == id
  {
    if extensions[0].id == id then extensions[0]
    else
      assert id in IdsOf(extensions[1..]) by {
        var k :| 0 <= k < |extensions| && IdsOf(extensions)[k] == id;
        assert IdsOf(extensions[1..])[k - 1] == id;
      }
      First(extensions[1..], id)
  }

  /** The ids with a requirement that is not there. */
  function Incomplete(g: Graph): set<string> {
    set id | id in g && !(g[id] <= g.Keys)
  }

  predicate Complete(g: Graph) {
    forall id | id in g :: g[id] <= g.Keys
  }

  lemma {:induction false} SomethingMissing(g: Graph, id: string)
    requires id in Incomplete(g)
    ensures g[id] - g.Keys != {}
  {
    var r :| r in g[id] && r !in g.Keys;
    assert r in g[id] - g.Keys;
  }

  lemma {:induction false} CompleteUnlessIncomplete(g: Graph)
    ensures Complete(g) <==> Incomplete(g) == {}
  {
    if Incomplete(g) == {} {
      forall id | id in g ensures g[id] <= g.Keys {
        assert id !in Incomplete(g);
      }
    }
  }

  /** The ids whose requirements are all in `order` and that are not there themselves. */
  function Ready(g: Graph, order: seq<string>): set<string> {
    set id | id in g && id !in order && g[id] <= Elements(order)
  }

  /** Continue `order` with the least ready id as long as there is one. */
  function Greedy(g: Graph, order: seq<string>): (all: seq<string>)
    ensures order <= all
    decreases |g.Keys - Elements(order)|
  {
    if Ready(g, order) == {} then order
    else
      var next := Least(Ready(g, order));
      PathGrows(g.Keys, order, next);
      Greedy(g, order + [next])
  }

  lemma {:induction false} StrictlyFewer(a: set<string>, b: set<string>)
    requires a < b
    ensures |a| < |b|
  {
    assert !(b <= a);
    var x :| x in b && x !in a;
    assert a <= b - {x};
    NotMore(a, b - {x});
  }

  lemma {:induction false} NotMore(a: set<string>, b: set<string>)
    requires a <= b
    ensures |a| <= |b|
  {
    assert b == a + (b - a);
  }

  lemma {:induction false} PathGrows(unresolved: set<string>, path: seq<string>, id: string)
    requires id in unresolved && id !in path
    ensures |unresolved - Elements(path + [id])| < |unresolved - Elements(path)|
  {
    assert id in unresolved - Elements(path);
    assert unresolved - Elements(path + [id]) < unresolved - Elements(path);
    StrictlyFewer(unresolved - Elements(path + [id]), unresolved - Elements(path));
  }

  /** Follow the least unresolved requirement from `id` until an id on the path comes up again. */
  function Lasso(g: Graph, unresolved: set<string>, path: seq<string>, id: string): seq<string>
    requires unresolved <= g.Keys && Stuck(g, unresolved) && id in unresolved && Elements(path) <= unresolved
    decreases |unresolved - Elements(path)|
  {
    if id in path then path[IndexOf(path, id)..] + [id]
    else
      PathGrows(unresolved, path, id);
      Lasso(g, unresolved, path + [id], Least(g[id] * unresolved))
  }

  function IndexOf(path: seq<string>, id: string): (i: nat)
    requires id in path
    ensures i < |path| && path[i] == id && id !in path[..i]
  {
    if path[0] == id then 0 else 1 + IndexOf(path[1..], id)
  }

  /** Every unresolved id has an unresolved requirement. */
  predicate Stuck(g: Graph, unresolved: set<string>) {
    forall id | id in unresolved && id in g :: g[id] * unresolved != {}
  }

  function Unresolved(g: Graph): set<string> {
    g.Keys - Elements(Greedy(g, []))
  }

  function Outcome<T>(extensions: seq<Extension<T>>): Resolution<T> {
    var g := GraphOf(extensions);
    if Repeated(extensions) != {} then Duplicate(Least(Repeated(extensions)))
    else if Incomplete(g) != {} then
      var id := Least(Incomplete(g));
      SomethingMissing(g, id);
      Missing(id, Least(g[id] - g.Keys))
    else
      CompleteUnlessIncomplete(g);
      GreedySound(g, []);
      UnresolvedIsStuck(g);
      if Unresolved(g) != {} then Cyclic(Lasso(g, Unresolved(g), [], Least(Unresolved(g))))
      else Resolved(Pick(extensions, Greedy(g, [])))
  }

  function Pick<T>(extensions: seq<Extension<T>>, ids: seq<string>): seq<Extension<T>>
    requires forall id | id in ids :: id in IdsOf(extensions)
  {
    seq(|ids|, i requires 0 <= i < |ids| => First(extensions, ids[i]))
  }

  // ------------------------------------------------------------- the greedy order

  /** Distinct ids of the graph, each after its requirements. */
  predicate Ordered(g: Graph, order: seq<string>) {
    && NoRepeats(order)
    && Elements(order) <= g.Keys
    && forall i | 0 <= i < |order| && order[i] in g :: g[order[i]] <= Elements(order[..i])
  }

  lemma {:induction false} OrderedNext(g: Graph, order: seq<string>, next: string)
    requires Ordered(g, order) && next in Ready(g, order)
    ensures Ordered(g, order + [next])
  {
    var more := order + [next];
    forall i | 0 <= i < |more| && more[i] in g ensures g[more[i]] <= Elements(more[..i]) {
      if i < |order| {
        assert more[..i] == order[..i];
      } else {
        assert more[..i] == order;
      }
    }
  }

  /** The greedy order respects the requirements, and it stops only when nothing is ready. */
  lemma {:induction false} GreedySound(g: Graph, order: seq<string>)
    requires Ordered(g, order)
    ensures Ordered(g, Greedy(g, order)) && Ready(g, Greedy(g, order)) == {}
    decreases |g.Keys - Elements(order)|
  {
    if Ready(g, order) != {} {
      var next := Least(Ready(g, order));
      OrderedNext(g, order, next);
      PathGrows(g.Keys, order, next);
      GreedySound(g, order + [next]);
    }
  }

  lemma {:induction false} GreedyNext(g: Graph, order: seq<string>)
    ensures if Ready(g, order) == {} then Greedy(g, order) == order
            else
              var next := Least(Ready(g, order));
              && next in g
              && Greedy(g, order) == Greedy(g, order + [next])
              && |g.Keys - Elements(order + [next])| < |g.Keys - Elements(order)|
  {
    if Ready(g, order) != {} {
      PathGrows(g.Keys, order, Least(Ready(g, order)));
    }
  }

  /** How the resolver's structures start out. */
  lemma {:induction false} NothingOrdered(g: Graph)
    ensures Ordered(g, [])
    ensures Ready(g, []) == set id | id in g && g[id] == {}
    ensures g == map id | id in g :: g[id] - Elements([])
  {
    assert Elements([]) == {};
    assert forall id | id in g :: g[id] - {} == g[id] && (g[id] <= {} <==> g[id] == {});
  }

  lemma {:induction false} UnresolvedIsStuck(g: Graph)
    requires Complete(g)
    ensures Stuck(g, Unresolved(g))
  {
    GreedySound(g, []);
    var order := Greedy(g, []);
    forall id | id in Unresolved(g) && id in g ensures g[id] * Unresolved(g) != {} {
      assert id !in Ready(g, order);
      var r :| r in g[id] && r !in Elements(order);
      assert r in g[id] * Unresolved(g);
    }
  }

  /** A topological order of the whole graph. */
  predicate Topological(g: Graph, order: seq<string>) {
    Ordered(g, order) && Elements(order) == g.Keys
  }

  /** Id sequences compared position by position. */
  predicate LexLe(a: seq<string>, b: seq<string>) {
    a == [] || (b != [] && if a[0] == b[0] then LexLe(a[1..], b[1..]) else Le(a[0], b[0]))
  }

  /** From any common beginning on, the greedy order is below every topological order. */
  lemma {:induction false} GreedyIsBelow(g: Graph, order: seq<string>, other: seq<string>)
    requires Topological(g, other) && order <= other
    ensures LexLe(Greedy(g, order)[|order|..], other[|order|..])
    decreases |other| - |order|
  {
    var n := |order|;
    if Ready(g, order) != {} {
      var x := Least(Ready(g, order));
      assert other[..n] == order;
      assert n < |other| by {
        assert x in Elements(other) && x !in order;
        assert n == |other| ==> order == other;
      }
      var y := other[n];
      assert y in Elements(other);
      assert y in Ready(g, order) by {
        assert forall k | 0 <= k < n :: order[k] == other[k];
      }
      var all := Greedy(g, order);
      assert all == Greedy(g, order + [x]);
      if x == y {
        assert other[..n + 1] == order + [x];
        GreedyIsBelow(g, order + [x], other);
        assert all[n..][1..] == all[n + 1..] && other[n..][1..] == other[n + 1..];
      }
      assert all[n] == (order + [x])[n] == x;
    }
  }

  /** When there is a topological order at all, the greedy one is the least. */
  lemma {:induction false} GreedyIsLeast(g: Graph, other: seq<string>)
    requires Topological(g, other)
    ensures Topological(g, Greedy(g, [])) && LexLe(Greedy(g, []), other)
  {
    GreedySound(g, []);
    GreedyIsBelow(g, [], other);
    assert other[0..] == other && Greedy(g, [])[0..] == Greedy(g, []);
    GreedyGetsAll(g, other, Greedy(g, []), 0);
  }

  /** An order that has come to an end has met everything a topological order lists. */
  lemma {:induction false} GreedyGetsAll(g: Graph, other: seq<string>, order: seq<string>, i: nat)
    requires Topological(g, other) && Ordered(g, order) && Ready(g, order) == {}
    requires i <= |other| && Elements(other[..i]) <= Elements(order)
    ensures Elements(order) == g.Keys
    decreases |other| - i
  {
    if i < |other| {
      assert other[i] in Elements(other);
      assert other[i] !in Ready(g, order);
      assert Elements(other[..i + 1]) == Elements(other[..i]) + {other[i]};
      GreedyGetsAll(g, other, order, i + 1);
    } else {
      assert other[..i] == other;
    }
  }

  // ------------------------------------------------------------------------- cycles

  /** Closed, and each id requires the next. */
  predicate IsCycle(g: Graph, cycle: seq<string>) {
    && |cycle| >= 2 && cycle[0] == cycle[|cycle| - 1]
    && forall i | 0 <= i < |cycle| - 1 :: cycle[i] in g && cycle[i + 1] in g[cycle[i]]
  }

  /** The ids of `path`, and then `id`, are linked by least unresolved requirements. */
  predicate Linked(g: Graph, unresolved: set<string>, path: seq<string>, id: string) {
    && (forall i | 0 <= i < |path| - 1 :: Follows(g, unresolved, path[i], path[i + 1]))
    && (path != [] ==> Follows(g, unresolved, path[|path| - 1], id))
  }

  predicate Follows(g: Graph, unresolved: set<string>, id: string, next: string) {
    id in g && g[id] * unresolved != {} && next == Least(g[id] * unresolved)
  }

  /** What is said of the cycle reported: closed, simple, inside the unresolved ids, least at each turn. */
  predicate Reported(g: Graph, unresolved: set<string>, cycle: seq<string>) {
    && IsCycle(g, cycle)
    && NoRepeats(cycle[..|cycle| - 1])
    && Elements(cycle) <= unresolved
    && forall i | 0 <= i < |cycle| - 1 :: Follows(g, unresolved, cycle[i], cycle[i + 1])
  }

  lemma {:induction false} ClosingIsReported(g: Graph, unresolved: set<string>, path: seq<string>, id: string)
    requires id in path && id in unresolved && Elements(path) <= unresolved
    requires NoRepeats(path) && Linked(g, unresolved, path, id)
    ensures Reported(g, unresolved, path[IndexOf(path, id)..] + [id])
  {
    hide Least, IsLeast;
    var k := IndexOf(path, id);
    var cycle := path[k..] + [id];
    forall i | 0 <= i < |cycle| - 1 ensures Follows(g, unresolved, cycle[i], cycle[i + 1]) {
      if i < |cycle| - 2 {
        assert cycle[i] == path[k + i] && cycle[i + 1] == path[k + i + 1];
      }
    }
    forall i | 0 <= i < |cycle| - 1 ensures cycle[i] in g && cycle[i + 1] in g[cycle[i]] {
      assert Follows(g, unresolved, cycle[i], cycle[i + 1]);
      FollowsIsRequired(g, unresolved, cycle[i], cycle[i + 1]);
    }
    assert cycle[..|cycle| - 1] == path[k..];
    assert Elements(cycle) <= unresolved;
  }

  lemma {:induction false} FollowsIsRequired(g: Graph, unresolved: set<string>, id: string, next: string)
    requires Follows(g, unresolved, id, next)
    ensures id in g && next in g[id] && next in unresolved
  {
  }

  lemma {:induction false} LinkedNext(g: Graph, unresolved: set<string>, path: seq<string>, id: string)
    requires Stuck(g, unresolved) && id in unresolved && id in g && id !in path
    requires NoRepeats(path) && Linked(g, unresolved, path, id)
    ensures NoRepeats(path + [id]) && Linked(g, unresolved, path + [id], Least(g[id] * unresolved))
  {
    hide Least, IsLeast;
    var more, next := path + [id], Least(g[id] * unresolved);
    assert Follows(g, unresolved, id, next);
    forall i | 0 <= i < |more| - 1 ensures Follows(g, unresolved, more[i], more[i + 1]) {
      if i < |path| - 1 {
        assert Follows(g, unresolved, path[i], path[i + 1]);
      }
    }
  }

  lemma {:induction false} LassoIsReported(g: Graph, unresolved: set<string>, path: seq<string>, id: string)
    requires unresolved <= g.Keys && Stuck(g, unresolved) && id in unresolved && Elements(path) <= unresolved
    requires NoRepeats(path) && Linked(g, unresolved, path, id)
    ensures Reported(g, unresolved, Lasso(g, unresolved, path, id))
    decreases |unresolved - Elements(path)|
  {
    hide Reported, Linked, NoRepeats, IndexOf;
    if id in path {
      ClosingIsReported(g, unresolved, path, id);
    } else {
      PathGrows(unresolved, path, id);
      LinkedNext(g, unresolved, path, id);
      LassoIsReported(g, unresolved, path + [id], Least(g[id] * unresolved));
    }
  }

  /** No id of a cycle can be put in an order that respects requirements. */
  lemma {:induction false} CycleIsNeverOrdered(g: Graph, cycle: seq<string>, order: seq<string>, i: nat)
    requires IsCycle(g, cycle) && Ordered(g, order) && i < |cycle|
    ensures cycle[i] !in order
  {
    if cycle[i] in order {
      var at :| 0 <= at < |order| && order[at] == cycle[i];
      EarlierStill(g, cycle, order, i, at);
    }
  }

  lemma {:induction false} EarlierStill(g: Graph, cycle: seq<string>, order: seq<string>, i: nat, at: nat)
    requires IsCycle(g, cycle) && Ordered(g, order) && i < |cycle| && at < |order| && order[at] == cycle[i]
    ensures false
    decreases at
  {
    var k := if i == |cycle| - 1 then 0 else i;
    assert cycle[k + 1] in Elements(order[..at]);
    var before :| 0 <= before < at && order[..at][before] == cycle[k + 1];
    EarlierStill(g, cycle, order, k + 1, before);
  }

  // ---------------------------------------------------------------- the cycle search

  lemma {:induction false} NoneWanted(g: Graph, unresolved: set<string>, id: string)
    requires id in g && id in unresolved
    requires forall j | 0 <= j < |Ascending(g[id])| :: Ascending(g[id])[j] !in unresolved
    ensures !Stuck(g, unresolved)
  {
    assert forall x | x in g[id] :: x in Ascending(g[id]);
    assert g[id] * unresolved == {};
  }

  /** `visit` with the `path` and `active` it shares between its calls. */
  class CycleSearch {
    var path: seq<string>
    var active: set<string>

    ghost predicate Valid()
      reads this
    {
      active == Elements(path)
    }

    constructor ()
      ensures Valid() && path == []
    {
      path, active := [], {};
    }

    /** Among stuck ids the search follows least requirements and never comes back empty-handed. */
    method Visit(g: Graph, unresolved: set<string>, id: string) returns (cycle: Option<seq<string>>)
      requires Valid() && unresolved <= g.Keys && id in unresolved && Elements(path) <= unresolved
      modifies this
      ensures cycle.None? ==> Valid() && path == old(path)
      ensures Stuck(g, unresolved) ==> cycle == Some(Lasso(g, unresolved, old(path), id))
      decreases |unresolved - Elements(path)|
    {
      hide Least, IsLeast, Greedy, Stuck, IndexOf;
      ghost var stuck := Stuck(g, unresolved);
      if id in active {
        var start := IndexOf(path, id);
        return Some(path[start..] + [id]);
      }
      PathGrows(unresolved, path, id);
      active := active + {id};
      path := path + [id];
      var wanted := Ascending(g[id]);
      var i := 0;
      while i < |wanted|
        invariant Valid() && path == old(path) + [id]
        invariant i <= |wanted| && (stuck ==> forall j | 0 <= j < i :: wanted[j] !in unresolved)
      {
        assert wanted[i] in wanted;
        if wanted[i] in unresolved {
          if stuck {
            FirstIsLeast(g[id], g[id] * unresolved, i);
          }
          cycle := Visit(g, unresolved, wanted[i]);
          if cycle.Some? {
            return;
          }
        }
        i := i + 1;
      }
      if stuck {
        NoneWanted(g, unresolved, id);
      }
      path := path[..|path| - 1];
      active := active - {id};
      assert path == old(path);
      return None;
    }
  }

  /** `None` stands for the error raised when no cycle is found; among stuck ids there always is one. */
  method FindCycle(g: Graph, unresolved: set<string>) returns (cycle: Option<seq<string>>)
    requires unresolved <= g.Keys
    ensures Stuck(g, unresolved) && unresolved != {} ==> cycle == Some(Lasso(g, unresolved, [], Least(unresolved)))
  {
    var starts := Ascending(unresolved);
    var i := 0;
    while i < |starts|
      invariant i <= |starts|
      invariant Stuck(g, unresolved) ==> i == 0
    {
      assert starts[i] in starts;
      var search := new CycleSearch();
      cycle := search.Visit(g, unresolved, starts[i]);
      if cycle.Some? {
        return;
      }
      i := i + 1;
    }
    return None;
  }

  // ----------------------------------------------------------------- resolving in place

  lemma {:induction false} IndexNext<T>(extensions: seq<Extension<T>>, e: Extension<T>)
    ensures IdsOf(extensions + [e]) == IdsOf(extensions) + [e.id]
    ensures forall id | id in IdsOf(extensions) :: First(extensions + [e], id) == First(extensions, id)
    ensures e.id !in IdsOf(extensions) ==> First(extensions + [e], e.id) == e
    ensures Repeated(extensions + [e]) == Repeated(extensions) + if e.id in IdsOf(extensions) then {e.id} else {}
  {
    assert IdsOf(extensions + [e]) == IdsOf(extensions) + [e.id];
    forall id | id in IdsOf(extensions) ensures First(extensions + [e], id) == First(extensions, id) {
      FirstOfMore(extensions, [e], id);
    }
    if e.id !in IdsOf(extensions) {
      forall x | x in extensions ensures x.id in IdsOf(extensions) {
        var k :| 0 <= k < |extensions| && extensions[k] == x;
        assert IdsOf(extensions)[k] == x.id;
      }
    }
  }

  lemma {:induction false} FirstOfMore<T>(extensions: seq<Extension<T>>, more: seq<Extension<T>>, id: string)
    requires id in IdsOf(extensions)
    ensures id in IdsOf(extensions + more) && First(extensions + more, id) == First(extensions, id)
  {
    assert IdsOf(extensions + more) == IdsOf(extensions) + IdsOf(more);
    if extensions[0].id != id {
      assert IdsOf(extensions)[1..] == IdsOf(extensions[1..]);
      assert IdsOf(extensions) == [IdsOf(extensions)[0]] + IdsOf(extensions)[1..];
      FirstOfMore(extensions[1..], more, id);
      assert (extensions + more)[1..] == extensions[1..] + more;
    }
  }

  lemma {:induction false} NoExtensions<T>()
    ensures IdsOf<T>([]) == [] && Repeated<T>([]) == {}
  {
  }

  /** Index the extensions by id, keeping the first of each, and note the ids that come again. */
  method IndexById<T>(extensions: seq<Extension<T>>) returns (byId: map<string, Extension<T>>, duplicates: set<string>)
    ensures byId.Keys == Elements(IdsOf(extensions))
    ensures forall id | id in byId :: byId[id] == First(extensions, id)
    ensures duplicates == Repeated(extensions)
  {
    hide First, Repeated;
    byId, duplicates := map[], {};
    NoExtensions<T>();
    var i := 0;
    while i < |extensions|
      invariant i <= |extensions|
      invariant byId.Keys == Elements(IdsOf(extensions[..i]))
      invariant forall id | id in byId :: byId[id] == First(extensions[..i], id)
      invariant duplicates == Repeated(extensions[..i])
    {
      var e := extensions[i];
      assert extensions[..i + 1] == extensions[..i] + [e];
      IndexNext(extensions[..i], e);
      if e.id in byId {
        duplicates := duplicates + {e.id};
      } else {
        byId := byId[e.id := e];
      }
      i := i + 1;
    }
    assert extensions[..i] == extensions;
  }

  /** Look for a requirement that is not there, extensions and requirements in ascending order. */
  method FindMissing(g: Graph) returns (missing: Option<(string, string)>)
    ensures missing.None? <==> Incomplete(g) == {}
    ensures missing.Some? ==>
              var (id, required) := missing.value;
              id == Least(Incomplete(g)) && g[id] - g.Keys != {} && required == Least(g[id] - g.Keys)
  {
    var ids := Ascending(g.Keys);
    var i := 0;
    while i < |ids|
      invariant i <= |ids| && forall j | 0 <= j < i :: ids[j] !in Incomplete(g)
    {
      assert ids[i] in ids;
      var wanted := Ascending(g[ids[i]]);
      var k := 0;
      while k < |wanted|
        invariant k <= |wanted| && forall j | 0 <= j < k :: wanted[j] in g
      {
        if wanted[k] !in g {
          assert wanted[k] in wanted;
          FirstIsLeast(g.Keys, Incomplete(g), i);
          FirstIsLeast(g[ids[i]], g[ids[i]] - g.Keys, k);
          return Some((ids[i], wanted[k]));
        }
        k := k + 1;
      }
      assert forall x | x in g[ids[i]] :: x in wanted;
      i := i + 1;
    }
    assert forall id | id in g :: id in ids;
    return None;
  }

  /** The reverse of the requirements. */
  function DependentsOf(g: Graph, id: string): set<string> {
    set d | d in g && id in g[d]
  }

  method Invert(g: Graph, keys: seq<string>) returns (dependents: Graph)
    requires Complete(g) && Elements(keys) == g.Keys
    ensures dependents == map id | id in g :: DependentsOf(g, id)
  {
    dependents := map id | id in g :: {};
    var i := 0;
    while i < |keys|
      invariant i <= |keys| && dependents.Keys == g.Keys
      invariant forall id, d | id in g :: d in dependents[id] <==> d in keys[..i] && id in g[d]
    {
      assert keys[i] in g.Keys;
      var todo := g[keys[i]];
      while todo != {}
        invariant todo <= g[keys[i]] && dependents.Keys == g.Keys
        invariant forall id, d | id in g ::
                    d in dependents[id] <==> (d in keys[..i] && id in g[d]) || (d == keys[i] && id in g[d] && id !in todo)
      {
        var required :| required in todo;
        dependents := dependents[required := dependents[required] + {keys[i]}];
        todo := todo - {required};
      }
      assert keys[..i + 1] == keys[..i] + [keys[i]];
      i := i + 1;
    }
    assert keys[..i] == keys;
    forall id | id in g ensures dependents[id] == DependentsOf(g, id) {
      assert forall d :: d in keys <==> d in g;
    }
  }

  /** An id all of whose requirements have just been met is new to the ready ones. */
  lemma {:induction false} DependentNotDone(g: Graph, order: seq<string>, next: string, dependent: string)
    requires Ordered(g, order) && next in Ready(g, order) && dependent in DependentsOf(g, next)
    ensures dependent !in order + [next] && dependent !in Ready(g, order)
    ensures dependent in g && next in g[dependent] && next !in Elements(order)
  {
  }

  /** The candidates whose requirements are all done. */
  function Freed(g: Graph, done: seq<string>, candidates: set<string>): set<string> {
    set d | d in candidates && d in g && g[d] <= Elements(done)
  }

  lemma {:induction false} FreedNext(g: Graph, done: seq<string>, candidates: seq<string>, d: string)
    requires d in g
    ensures Freed(g, done, Elements(candidates + [d])) ==
            Freed(g, done, Elements(candidates)) + if g[d] <= Elements(done) then {d} else {}
    ensures d !in candidates ==> d !in Freed(g, done, Elements(candidates))
  {
  }

  /** Who is ready once `next` is done: who was, without it, and its dependents with nothing else to wait for. */
  lemma {:induction false} ReadyNext(g: Graph, order: seq<string>, next: string)
    requires Ordered(g, order) && next in Ready(g, order)
    ensures Ready(g, order + [next]) ==
            Ready(g, order) - {next} + Freed(g, order + [next], DependentsOf(g, next))
  {
    assert Elements(order + [next]) == Elements(order) + {next};
    forall d | d in DependentsOf(g, next) ensures d !in order + [next] {
      DependentNotDone(g, order, next, d);
    }
    forall id | id in g && id !in DependentsOf(g, next)
      ensures g[id] <= Elements(order + [next]) <==> g[id] <= Elements(order)
    {
    }
  }

  /** Kahn's algorithm: pop the least ready id, strike it off its dependents' lists. */
  method OrderAll(g: Graph, keys: seq<string>) returns (order: seq<string>)
    requires Complete(g) && Elements(keys) == g.Keys
    ensures order == Greedy(g, [])
  {
    hide Greedy, Ordered, IsLeast, Ready, Elements, DependentsOf, Complete, Freed;
    NothingOrdered(g);
    var dependents := Invert(g, keys);
    var waitsFor: Graph := g;
    var ready := set id | id in g && waitsFor[id] == {};
    order := [];
    while ready != {}
      invariant ready == Ready(g, order) && Ordered(g, order)
      invariant waitsFor == map id | id in g :: g[id] - Elements(order)
      invariant Greedy(g, order) == Greedy(g, [])
      decreases |g.Keys - Elements(order)|
    {
      var next := Least(ready);
      ghost var was := order;
      GreedyNext(g, was);
      OrderedNext(g, was, next);
      ReadyNext(g, was, next);
      AscendingNoRepeats(dependents[next]);
      ready := ready - {next};
      order := order + [next];
      waitsFor, ready := Strike(g, was, next, Ascending(dependents[next]), waitsFor, ready);
    }
    GreedyNext(g, order);
  }

  lemma {:induction false} NoRepeatsPrefix(ids: seq<string>)
    requires NoRepeats(ids)
    ensures forall i | 0 <= i < |ids| :: ids[i] !in ids[..i]
  {
  }

  /** The inner `for`: strike `next` off its dependents' lists and push those left with none. */
  method Strike(g: Graph, ghost order: seq<string>, next: string, dependents: seq<string>, waitsFor0: Graph, ready0: set<string>)
    returns (waitsFor: Graph, ready: set<string>)
    requires Ordered(g, order) && next in Ready(g, order) && NoRepeats(dependents)
    requires Elements(dependents) == DependentsOf(g, next)
    requires waitsFor0 == map id | id in g :: g[id] - Elements(order)
    requires ready0 == Ready(g, order) - {next}
    ensures waitsFor == map id | id in g :: g[id] - Elements(order + [next])
    ensures ready == ready0 + Freed(g, order + [next], DependentsOf(g, next))
  {
    hide Ordered, Ready, Greedy, Freed;
    NoRepeatsPrefix(dependents);
    FreedNone(g, order + [next]);
    waitsFor, ready := waitsFor0, ready0;
    assert Elements(order + [next]) == Elements(order) + {next};
    var i := 0;
    while i < |dependents|
      invariant i <= |dependents| && waitsFor.Keys == g.Keys
      invariant forall id | id in g ::
                  waitsFor[id] == g[id] - if id in dependents[..i] then Elements(order + [next]) else Elements(order)
      invariant ready == ready0 + Freed(g, order + [next], Elements(dependents[..i]))
    {
      var d := dependents[i];
      assert d in Elements(dependents);
      DependentNotDone(g, order, next, d);
      FreedNext(g, order + [next], dependents[..i], d);
      assert dependents[..i + 1] == dependents[..i] + [d];
      waitsFor := waitsFor[d := waitsFor[d] - {next}];
      if waitsFor[d] == {} {
        assert d !in ready;  // so a set does for the heap
        ready := ready + {d};
      }
      i := i + 1;
    }
    assert dependents[..i] == dependents;
    forall id | id in g ensures waitsFor[id] == g[id] - Elements(order + [next]) {
      assert id in dependents <==> next in g[id] by {
        assert id in Elements(dependents) <==> id in DependentsOf(g, next);
      }
    }
  }

  lemma {:induction false} FreedNone(g: Graph, done: seq<string>)
    ensures Freed(g, done, Elements([])) == {}
  {
  }

  lemma {:induction false} AscendingNoRepeats(ids: set<string>)
    ensures NoRepeats(Ascending(ids)) && Elements(Ascending(ids)) == ids
  {
    forall i, j | 0 <= i < j < |Ascending(ids)| ensures Ascending(ids)[i] != Ascending(ids)[j] {
      AscendingOrder(ids, i, j);
    }
  }

  lemma {:induction false} LengthIsSize(ids: seq<string>)
    requires NoRepeats(ids)
    ensures |Elements(ids)| == |ids|
  {
    if ids != [] {
      var n := |ids| - 1;
      LengthIsSize(ids[..n]);
      assert ids == ids[..n] + [ids[n]];
      assert Elements(ids) == Elements(ids[..n]) + {ids[n]};
    }
  }

  /** Fewer ordered than there are: the test the resolver ends on. */
  lemma {:induction false} ShortMeansUnresolved(g: Graph)
    ensures |Greedy(g, [])| != |g.Keys| <==> Unresolved(g) != {}
  {
    GreedySound(g, []);
    var order := Greedy(g, []);
    LengthIsSize(order);
    assert g.Keys == Elements(order) + Unresolved(g);
  }

  /** What `resolve` raises first. */
  lemma {:induction false} FaultyOutcome<T>(extensions: seq<Extension<T>>)
    ensures var repeated, g := Repeated(extensions), GraphOf(extensions);
            && (repeated != {} ==> Outcome(extensions) == Duplicate(Least(repeated)))
            && (repeated == {} && Incomplete(g) != {} ==>
                  && g[Least(Incomplete(g))] - g.Keys != {}
                  && Outcome(extensions) == Missing(Least(Incomplete(g)), Least(g[Least(Incomplete(g))] - g.Keys)))
  {
    if Incomplete(GraphOf(extensions)) != {} {
      SomethingMissing(GraphOf(extensions), Least(Incomplete(GraphOf(extensions))));
    }
  }

  /** What is left to do once nothing is duplicate or missing. */
  lemma {:induction false} CompleteOutcome<T>(extensions: seq<Extension<T>>)
    requires Repeated(extensions) == {} && Incomplete(GraphOf(extensions)) == {}
    ensures var g, order := GraphOf(extensions), Greedy(GraphOf(extensions), []);
            && Complete(g) && Stuck(g, Unresolved(g))
            && (forall id | id in order :: id in IdsOf(extensions))
            && (|order| != |g.Keys| <==> Unresolved(g) != {})
            && Outcome(extensions) == if Unresolved(g) != {} then Cyclic(Lasso(g, Unresolved(g), [], Least(Unresolved(g))))
                                      else Resolved(Pick(extensions, order))
  {
    var g := GraphOf(extensions);
    CompleteUnlessIncomplete(g);
    UnresolvedIsStuck(g);
    GreedySound(g, []);
    ShortMeansUnresolved(g);
    assert forall id | id in Greedy(g, []) :: id in Elements(Greedy(g, []));
  }

  /** The end of `resolve`: nothing is duplicate or missing. */
  method OrderOrCycle<T>(extensions: seq<Extension<T>>, byId: map<string, Extension<T>>, g: Graph) returns (resolution: Resolution<T>)
    requires Repeated(extensions) == {} && Incomplete(g) == {} && g == GraphOf(extensions)
    requires byId.Keys == g.Keys == Elements(IdsOf(extensions))
    requires forall id | id in byId :: id in IdsOf(extensions) && byId[id] == First(extensions, id)
    ensures resolution == Outcome(extensions)
  {
    hide Greedy, Ready, Lasso, First, IsLeast, Repeated, Incomplete, Complete, Stuck, Ordered, Outcome, Elements, GraphOf;
    CompleteOutcome(extensions);
    KeysAreIds(extensions, byId.Keys);
    var order := OrderAll(g, IdsOf(extensions));
    if |order| != |byId| {
      var cycle := FindCycle(g, byId.Keys - Elements(order));
      return Cyclic(cycle.value);
    }
    var resolved := seq(|order|, i requires 0 <= i < |order| => byId[order[i]]);
    assert resolved == Pick(extensions, order);
    return Resolved(resolved);
  }

  /** `resolve`. */
  method Resolve<T>(extensions: seq<Extension<T>>) returns (resolution: Resolution<T>)
    ensures resolution == Outcome(extensions)
  {
    hide First, IsLeast, Repeated, Incomplete, Outcome, Elements, Greedy, Stuck;
    FaultyOutcome(extensions);
    var byId, duplicates := IndexById(extensions);
    if duplicates != {} {
      return Duplicate(Least(duplicates));
    }
    KeysAreIds(extensions, byId.Keys);
    var g := map id | id in byId :: Elements(byId[id].requirements);
    assert g == GraphOf(extensions);
    var missing := FindMissing(g);
    if missing.Some? {
      return Missing(missing.value.0, missing.value.1);
    }
    resolution := OrderOrCycle(extensions, byId, g);
  }

  lemma {:induction false} KeysAreIds<T>(extensions: seq<Extension<T>>, keys: set<string>)
    requires keys == Elements(IdsOf(extensions))
    ensures forall id :: id in keys <==> id in IdsOf(extensions)
  {
  }
}
