/**
 The workspace dependency graph: cycle detection by counting, the closure of dependents, and the
 name-ordered topological sort. A graph maps each package to the set of packages it depends on.
 */
module PackageGraph {
  import opened Sequences

  type Graph = map<string, set<string>>

  ghost predicate Closed(g: Graph) {
    forall n, d :: n in g && d in g[n] ==> d in g
  }

  /** A walk along dependencies. */
  ghost predicate IsPath(g: Graph, p: seq<string>) {
    && p != [] && (forall k :: 0 <= k < |p| ==> p[k] in g)
    && forall k :: 0 <= k < |p| - 1 ==> p[k + 1] in g[p[k]]
  }

  /** A walk of at least one step that returns to its start; a self-dependency is one. */
  ghost predicate IsCycle(g: Graph, p: seq<string>) {
    |p| >= 2 && IsPath(g, p) && p[0] == p[|p| - 1]
  }

  ghost predicate Cyclic(g: Graph) {
    exists p :: IsCycle(g, p)
  }

  // ---------------------------------------------------------------- orders exclude cycles

  /** Each entry's dependencies within s come before it. */
  ghost predicate Ordered(g: Graph, s: seq<string>) {
    && Distinct(s)
    && (forall k :: 0 <= k < |s| ==> s[k] in g)
    && forall i, j :: 0 <= i <= j < |s| ==> s[j] !in g[s[i]]
  }

  ghost predicate Ends(p: seq<string>, s: seq<string>, a: nat, b: nat) {
    p != [] && a < |s| && b < |s| && s[a] == p[0] && s[b] == p[|p| - 1]
  }

  /** Along a walk inside an ordered list, positions fall. */
  lemma {:induction false} WalkDescends(g: Graph, s: seq<string>, p: seq<string>, a: nat, b: nat)
    requires Ordered(g, s) && IsPath(g, p) && |p| >= 2 && Elements(p) <= Elements(s) && Ends(p, s, a, b)
    ensures b < a
  {
    assert p[1] in g[p[0]] && p[1] in Elements(s);
    var c :| 0 <= c < |s| && s[c] == p[1];
    assert c < a;
    if |p| > 2 {
      assert Elements(p[1..]) <= Elements(p);
      assert forall k :: 0 <= k < |p| - 2 ==> p[1..][k + 1] in g[p[1..][k]];
      WalkDescends(g, s, p[1..], c, b);
    } else {
      assert p[1] == p[|p| - 1];
    }
  }

  lemma OrderedHasNoCycle(g: Graph, s: seq<string>)
    requires Ordered(g, s) && g.Keys <= Elements(s)
    ensures !Cyclic(g)
  {
    forall p | |p| >= 2 && IsPath(g, p) ensures p[0] != p[|p| - 1] {
      assert forall x :: x in p ==> x in g;
      assert p[0] in Elements(s) && p[|p| - 1] in Elements(s);
      var a :| 0 <= a < |s| && s[a] == p[0];
      var b :| 0 <= b < |s| && s[b] == p[|p| - 1];
      WalkDescends(g, s, p, a, b);
    }
  }

  // ---------------------------------------------------------------- stuck sets contain a cycle

  /** Everyone in u depends on someone in u. */
  ghost predicate Stuck(g: Graph, u: set<string>) {
    && u <= g.Keys
    && forall n :: n in u ==> g[n] * u != {}
  }

  ghost function SomeDep(g: Graph, u: set<string>, n: string): (d: string)
    requires Stuck(g, u) && n in u
    ensures d in g[n] && d in u
  {
    var d :| d in g[n] * u;
    d
  }

  ghost function Walk(g: Graph, u: set<string>, n: string, steps: nat): (p: seq<string>)
    requires Stuck(g, u) && n in u
    ensures |p| == steps + 1 && p[0] == n
    ensures IsPath(g, p) && Elements(p) <= u
    decreases steps
  {
    if steps == 0 then [n]
    else
      var rest := Walk(g, u, SomeDep(g, u, n), steps - 1);
      [n] + rest
  }

  lemma Pigeonhole(p: seq<string>, u: set<string>)
    requires Elements(p) <= u && |u| < |p|
    ensures !Distinct(p)
  {
    if Distinct(p) {
      DistinctCard(p);
      SubsetCard(Elements(p), u);
    }
  }

  lemma StuckHasCycle(g: Graph, u: set<string>)
    requires Stuck(g, u) && u != {}
    ensures Cyclic(g)
  {
    var n :| n in u;
    var p := Walk(g, u, n, |u|);
    Pigeonhole(p, u);
    var i, j :| 0 <= i < j < |p| && p[i] == p[j];
    var q := p[i..j + 1];
    assert IsPath(g, q) by {
      assert forall k :: 0 <= k < |q| ==> q[k] == p[i + k];
    }
    assert IsCycle(g, q);
  }

  // ---------------------------------------------------------------- Kahn's loop

  ghost function Dependents(g: Graph, d: string): set<string> {
    set n | n in g && d in g[n]
  }

  /** Enter one package with each of its dependencies. */
  method AddDependent(before: Graph, n: string, deps: set<string>) returns (rev: Graph)
    requires deps <= before.Keys
    ensures rev.Keys == before.Keys
    ensures forall d :: d in before ==> rev[d] == if d in deps then before[d] + {n} else before[d]
  {
    rev := before;
    var todo := deps;
    while todo != {}
      invariant todo <= deps && rev.Keys == before.Keys
      invariant forall d :: d in before ==> rev[d] == if d in deps - todo then before[d] + {n} else before[d]
    {
      var d :| d in todo;
      todo := todo - {d};
      rev := rev[d := rev[d] + {n}];
    }
  }

  /** The reverse edges, built edge by edge. */
  method DirectDependents(g: Graph) returns (rev: Graph)
    requires Closed(g)
    ensures rev.Keys == g.Keys && forall d :: d in g ==> rev[d] == Dependents(g, d)
  {
    rev := map n | n in g :: {};
    var todo := g.Keys;
    while todo != {}
      invariant todo <= g.Keys && rev.Keys == g.Keys
      invariant forall d :: d in g ==> rev[d] == set n | n in g && n !in todo && d in g[n]
    {
      var n :| n in todo;
      rev := AddDependent(rev, n, g[n]);
      todo := todo - {n};
    }
    assert forall d :: d in g ==> Dependents(g, d) == set n | n in g && n !in todo && d in g[n];
  }

  /** How many dependencies of each package are still untaken. */
  ghost predicate Counts(g: Graph, degree: map<string, int>, taken: set<string>) {
    degree.Keys == g.Keys && forall n :: n in g ==> degree[n] == |g[n] - taken|
  }

  /** Untaken packages all of whose dependencies are taken. */
  ghost function Ready(g: Graph, taken: set<string>): set<string> {
    set n | n in g && n !in taken && g[n] <= taken
  }

  lemma DropOne(a: set<string>, taken: set<string>, x: string)
    requires x !in taken
    ensures |a - (taken + {x})| == |a - taken| - (if x in a then 1 else 0)
  {
    if x in a {
      assert a - taken == (a - (taken + {x})) + {x};
    } else {
      assert a - (taken + {x}) == a - taken;
    }
  }

  lemma EmptyDegree(a: set<string>, taken: set<string>)
    ensures |a - taken| == 0 <==> a <= taken
  {
    if a <= taken { assert a - taken == {}; }
    if |a - taken| == 0 {
      forall x | x in a ensures x in taken { assert x !in a - taken; }
    }
  }

  lemma DropFromAll(g: Graph, taken: set<string>, x: string)
    requires x !in taken
    ensures forall n :: n in g ==>
              |g[n] - taken| == |g[n] - (taken + {x})| + (if n in Dependents(g, x) then 1 else 0)
  {
    forall n | n in g
      ensures |g[n] - taken| == |g[n] - (taken + {x})| + (if n in Dependents(g, x) then 1 else 0)
    {
      DropOne(g[n], taken, x);
    }
  }

  /** Whatever was taken has all its dependencies taken. */
  ghost predicate DownClosed(g: Graph, taken: set<string>) {
    taken <= g.Keys && forall n :: n in taken ==> g[n] <= taken
  }

  /** Taking a ready package makes only its dependents newly ready. */
  lemma ReadyAfter(g: Graph, taken: set<string>, x: string)
    requires DownClosed(g, taken) && x in Ready(g, taken)
    ensures DownClosed(g, taken + {x})
    ensures Ready(g, taken + {x}) - Dependents(g, x) == Ready(g, taken) - {x}
    ensures Dependents(g, x) !! taken + {x}
  {
  }

  lemma ListsAppend(queue: seq<string>, s: set<string>, n: string)
    requires Lists(queue, s) && n !in s
    ensures Lists(queue + [n], s + {n})
  {
    assert forall x :: x in queue ==> x in Elements(queue);
  }

  lemma ListsTail(queue: seq<string>, s: set<string>)
    requires Lists(queue, s) && queue != []
    ensures queue[0] in s && Lists(queue[1..], s - {queue[0]})
  {
    assert queue[0] in Elements(queue);
    assert queue == [queue[0]] + queue[1..];
  }

  /** One pending element handled: it joins the queue exactly when it belongs to r. */
  lemma ListsHandled(queue: seq<string>, r: set<string>, todo: set<string>, n: string)
    requires Lists(queue, r - todo) && n in todo
    ensures n in r ==> Lists(queue + [n], r - (todo - {n}))
    ensures n !in r ==> Lists(queue, r - (todo - {n}))
  {
    if n in r {
      ListsAppend(queue, r - todo, n);
      assert r - (todo - {n}) == r - todo + {n};
    } else {
      assert r - (todo - {n}) == r - todo;
    }
  }

  /** What the inner loop keeps while the dependents in todo are still to be handled. */
  ghost predicate Relaxing(g: Graph, taken: set<string>, todo: set<string>, degree: map<string, int>,
                           queue: seq<string>) {
    && todo <= g.Keys && degree.Keys == g.Keys
    && (forall n :: n in g ==> degree[n] == |g[n] - taken| + if n in todo then 1 else 0)
    && Lists(queue, Ready(g, taken) - todo)
  }

  lemma RelaxOne(g: Graph, taken: set<string>, todo: set<string>, degree: map<string, int>,
                 queue: seq<string>, n: string)
    requires Relaxing(g, taken, todo, degree, queue) && n in todo && n !in taken
    ensures
      var next := degree[n] - 1;
      Relaxing(g, taken, todo - {n}, degree[n := next], if next == 0 then queue + [n] else queue)
  {
    EmptyDegree(g[n], taken);
    ListsHandled(queue, Ready(g, taken), todo, n);
  }

  lemma RelaxStart(g: Graph, taken: set<string>, x: string, degree: map<string, int>, queue: seq<string>)
    requires DownClosed(g, taken) && x in Ready(g, taken)
    requires Counts(g, degree, taken) && Lists(queue, Ready(g, taken) - {x})
    ensures Relaxing(g, taken + {x}, Dependents(g, x), degree, queue)
  {
    DropFromAll(g, taken, x);
    ReadyAfter(g, taken, x);
  }

  lemma RelaxEnd(g: Graph, taken: set<string>, degree: map<string, int>, queue: seq<string>)
    requires Relaxing(g, taken, {}, degree, queue)
    ensures Counts(g, degree, taken) && Lists(queue, Ready(g, taken))
  {
    assert Ready(g, taken) - {} == Ready(g, taken);
  }

  /** The inner loop: lower the count of every dependent, queueing those that reach zero. */
  method Relax(g: Graph, dependents: set<string>, current: string, ghost taken: set<string>,
               degree: map<string, int>, queue: seq<string>)
    returns (degree': map<string, int>, queue': seq<string>)
    requires DownClosed(g, taken) && current in Ready(g, taken) && dependents == Dependents(g, current)
    requires Counts(g, degree, taken) && Lists(queue, Ready(g, taken) - {current})
    ensures Counts(g, degree', taken + {current})
    ensures Lists(queue', Ready(g, taken + {current}))
  {
    degree', queue' := degree, queue;
    var todo := dependents;
    RelaxStart(g, taken, current, degree, queue);
    ReadyAfter(g, taken, current);
    while todo != {}
      invariant todo <= dependents && Relaxing(g, taken + {current}, todo, degree', queue')
    {
      var n :| n in todo;
      RelaxOne(g, taken + {current}, todo, degree', queue', n);
      todo := todo - {n};
      var next := degree'[n] - 1;
      degree' := degree'[n := next];
      if next == 0 {
        queue' := queue' + [n];
      }
    }
    RelaxEnd(g, taken + {current}, degree', queue');
  }

  method Degrees(g: Graph) returns (degree: map<string, int>)
    ensures Counts(g, degree, {})
  {
    degree := map n | n in g :: |g[n]|;
    assert forall n :: n in g ==> g[n] - {} == g[n];
  }

  lemma SourceOne(g: Graph, todo: set<string>, degree: map<string, int>, queue: seq<string>, n: string)
    requires Counts(g, degree, {}) && Lists(queue, Ready(g, {}) - todo) && n in todo && n in g
    ensures Lists(if degree[n] == 0 then queue + [n] else queue, Ready(g, {}) - (todo - {n}))
  {
    EmptyDegree(g[n], {});
    ListsHandled(queue, Ready(g, {}), todo, n);
  }

  /** The packages with nothing to wait for, in any order. */
  method Sources(g: Graph, degree: map<string, int>) returns (queue: seq<string>)
    requires Counts(g, degree, {})
    ensures Lists(queue, Ready(g, {}))
  {
    queue := [];
    var todo := g.Keys;
    while todo != {}
      invariant todo <= g.Keys && Lists(queue, Ready(g, {}) - todo)
    {
      var n :| n in todo;
      SourceOne(g, todo, degree, queue, n);
      todo := todo - {n};
      if degree[n] == 0 {
        queue := queue + [n];
      }
    }
    assert Ready(g, {}) - {} == Ready(g, {});
  }

  /** Taking one more ready package keeps the list ordered. */
  lemma OrderedExtend(g: Graph, order: seq<string>, x: string)
    requires Ordered(g, order) && DownClosed(g, Elements(order)) && x in Ready(g, Elements(order))
    ensures Ordered(g, order + [x])
    ensures Elements(order + [x]) == Elements(order) + {x}
  {
    forall i, j | 0 <= i <= j < |order + [x]| ensures (order + [x])[j] !in g[(order + [x])[i]] {
      if i < |order| == j {
        assert order[i] in Elements(order);
      }
    }
  }

  /** When nothing is ready, what remains is stuck. */
  lemma RestIsStuck(g: Graph, taken: set<string>)
    requires Closed(g) && Ready(g, taken) == {}
    ensures Stuck(g, g.Keys - taken)
  {
    forall n | n in g.Keys - taken ensures g[n] * (g.Keys - taken) != {} {
      assert n !in Ready(g, taken);
      var d :| d in g[n] && d !in taken;
      assert d in g[n] * (g.Keys - taken);
    }
  }

  /** What the outer loop keeps after taking the packages in order. */
  ghost predicate Taking(g: Graph, order: seq<string>, degree: map<string, int>, queue: seq<string>) {
    && Ordered(g, order) && DownClosed(g, Elements(order))
    && Counts(g, degree, Elements(order)) && Lists(queue, Ready(g, Elements(order)))
  }

  lemma TakeOne(g: Graph, order: seq<string>, x: string)
    requires Ordered(g, order) && DownClosed(g, Elements(order)) && x in Ready(g, Elements(order))
    ensures Ordered(g, order + [x]) && DownClosed(g, Elements(order + [x]))
    ensures Elements(order + [x]) == Elements(order) + {x}
    ensures |g.Keys - Elements(order + [x])| < |g.Keys - Elements(order)|
  {
    OrderedExtend(g, order, x);
    ReadyAfter(g, Elements(order), x);
    assert g.Keys - Elements(order) == (g.Keys - Elements(order + [x])) + {x};
  }

  /** With nothing ready, the count is complete exactly when there is no cycle. */
  lemma CountDecides(g: Graph, order: seq<string>)
    requires Closed(g) && Ordered(g, order) && DownClosed(g, Elements(order)) && Ready(g, Elements(order)) == {}
    ensures |order| != |g| <==> Cyclic(g)
  {
    DistinctCard(order);
    SubsetCard(Elements(order), g.Keys);
    assert |g| == |g.Keys|;
    if Elements(order) == g.Keys {
      OrderedHasNoCycle(g, order);
    } else {
      assert exists n :: n in g.Keys && n !in Elements(order);
      var n :| n in g.Keys && n !in Elements(order);
      assert n in g.Keys - Elements(order);
      RestIsStuck(g, Elements(order));
      StuckHasCycle(g, g.Keys - Elements(order));
    }
  }

  /** Kahn's loop counts every package exactly when the graph has no cycle. */
  method HasCycle(g: Graph, rev: Graph) returns (cyclic: bool)
    requires Closed(g) && rev.Keys == g.Keys && forall d :: d in g ==> rev[d] == Dependents(g, d)
    ensures cyclic <==> Cyclic(g)
  {
    var degree := Degrees(g);
    var queue := Sources(g, degree);
    var visitedCount := 0;
    ghost var order: seq<string> := [];
    assert Elements(order) == {};
    while queue != []
      invariant Taking(g, order, degree, queue) && visitedCount == |order|
      decreases |g.Keys - Elements(order)|
    {
      var current := queue[0];
      ListsTail(queue, Ready(g, Elements(order)));
      visitedCount := visitedCount + 1;
      degree, queue := Relax(g, rev[current], current, Elements(order), degree, queue[1..]);
      TakeOne(g, order, current);
      order := order + [current];
    }
    CountDecides(g, order);
    cyclic := visitedCount != |g|;
  }

  // ---------------------------------------------------------------- the closure of dependents

  ghost predicate Leads(g: Graph, p: seq<string>, a: string, b: string) {
    IsPath(g, p) && p[0] == a && p[|p| - 1] == b
  }

  /** b is a or a transitive dependency of a. */
  ghost predicate Reaches(g: Graph, a: string, b: string) {
    exists p :: Leads(g, p, a, b)
  }

  /** The seed and everything that depends on it, directly or not. */
  ghost function Closure(g: Graph, seed: string): set<string> {
    set n | n in g && Reaches(g, n, seed)
  }

  lemma ReachesSelf(g: Graph, a: string)
    requires a in g
    ensures Reaches(g, a, a)
  {
    assert Leads(g, [a], a, a);
  }

  lemma ReachesStep(g: Graph, a: string, b: string, c: string)
    requires a in g && b in g[a] && Reaches(g, b, c)
    ensures Reaches(g, a, c)
  {
    var p :| Leads(g, p, b, c);
    assert Leads(g, [a] + p, a, c);
  }

  /** The first step of a walk to another package is a dependency that still reaches it. */
  lemma ReachesUnfold(g: Graph, a: string, c: string) returns (b: string)
    requires Reaches(g, a, c) && a != c
    ensures a in g && b in g && b in g[a] && Reaches(g, b, c)
  {
    var p :| Leads(g, p, a, c);
    b := p[1];
    assert p[0 + 1] in g[p[0]];
    assert forall k :: 0 <= k < |p| - 2 ==> p[1..][k + 1] in g[p[1..][k]];
    assert Leads(g, p[1..], b, c);
  }

  /** A set that holds the seed and all dependents of its members holds the closure. */
  lemma {:induction false} ClosedUnderDependents(g: Graph, c: set<string>, p: seq<string>, a: string, seed: string)
    requires seed in c && (forall n, m :: n in c && m in Dependents(g, n) ==> m in c)
    requires Leads(g, p, a, seed)
    ensures a in c
    decreases |p|
  {
    if |p| > 1 {
      assert p[0 + 1] in g[p[0]];
      assert forall k :: 0 <= k < |p| - 2 ==> p[1..][k + 1] in g[p[1..][k]];
      ClosedUnderDependents(g, c, p[1..], p[1], seed);
      assert a in Dependents(g, p[1]);
    }
  }

  /** What the search keeps: found packages reach the seed, and only queued ones have dependents to add. */
  ghost predicate Searching(g: Graph, seed: string, found: set<string>, queue: set<string>) {
    && seed in found && found <= Closure(g, seed) && queue <= found
    && forall n :: n in found - queue ==> Dependents(g, n) <= found
  }

  lemma SearchStep(g: Graph, seed: string, found: set<string>, queue: set<string>, n: string)
    requires Searching(g, seed, found, queue) && n in queue
    ensures Searching(g, seed, found + Dependents(g, n), queue - {n} + (Dependents(g, n) - found))
  {
    assert n in Closure(g, seed);
    forall m | m in Dependents(g, n) ensures m in Closure(g, seed) {
      ReachesStep(g, m, n, seed);
    }
  }

  lemma SearchEnd(g: Graph, seed: string, found: set<string>)
    requires Searching(g, seed, found, {})
    ensures found == Closure(g, seed)
  {
    forall a | a in Closure(g, seed) ensures a in found {
      var p :| Leads(g, p, a, seed);
      assert forall n, m :: n in found && m in Dependents(g, n) ==> m in found by {
        forall n, m | n in found && m in Dependents(g, n) ensures m in found {
          assert n in found - {};
        }
      }
      ClosedUnderDependents(g, found, p, a, seed);
    }
  }

  /** Append the dependents not yet found. */
  method Discover(dependents: set<string>, found: set<string>, queue: seq<string>)
    returns (found': set<string>, queue': seq<string>)
    requires Distinct(queue) && Elements(queue) <= found
    ensures found' == found + dependents
    ensures Lists(queue', Elements(queue) + (dependents - found))
  {
    found', queue' := found, queue;
    var todo := dependents;
    while todo != {}
      invariant todo <= dependents && found' == found + (dependents - todo)
      invariant Lists(queue', Elements(queue) + (dependents - todo - found))
    {
      var n :| n in todo;
      if n !in found' {
        ListsAppend(queue', Elements(queue) + (dependents - todo - found), n);
        found', queue' := found' + {n}, queue' + [n];
        assert dependents - (todo - {n}) - found == dependents - todo - found + {n};
      } else {
        assert Elements(queue) + (dependents - (todo - {n}) - found) == Elements(queue) + (dependents - todo - found);
      }
      todo := todo - {n};
    }
  }

  lemma SearchShrinks(g: Graph, seed: string, found: set<string>, queue: set<string>, n: string)
    requires Searching(g, seed, found, queue) && n in queue
    ensures
      var found' := found + Dependents(g, n);
      var queue' := queue - {n} + (Dependents(g, n) - found);
      |g.Keys - (found' - queue')| < |g.Keys - (found - queue)|
  {
    var rest := g.Keys - (found - queue);
    assert n in rest;
    var rest' := g.Keys - ((found + Dependents(g, n)) - (queue - {n} + (Dependents(g, n) - found)));
    assert rest' == rest - {n};
  }

  /** Breadth-first search along dependents finds exactly the closure. */
  method DependentClosure(g: Graph, rev: Graph, seed: string) returns (found: set<string>)
    requires seed in g && rev.Keys == g.Keys && forall d :: d in g ==> rev[d] == Dependents(g, d)
    ensures found == Closure(g, seed)
  {
    ReachesSelf(g, seed);
    found := {seed};
    var queue := [seed];
    assert Elements(queue) == {seed};
    while queue != []
      invariant Distinct(queue) && Searching(g, seed, found, Elements(queue))
      decreases |g.Keys - (found - Elements(queue))|
    {
      var current := queue[0];
      ListsTail(queue, Elements(queue));
      SearchStep(g, seed, found, Elements(queue), current);
      SearchShrinks(g, seed, found, Elements(queue), current);
      found, queue := Discover(rev[current], found, queue[1..]);
    }
    SearchEnd(g, seed, found);
  }

  // ---------------------------------------------------------------- the name-ordered topological sort

  ghost predicate IsLeast(s: set<string>, lt: (string, string) -> bool, x: string) {
    x in s && forall y :: y in s && y != x ==> lt(x, y)
  }

  ghost function Least(s: set<string>, lt: (string, string) -> bool): (x: string)
    requires s != {} && StrictTotal(lt)
    ensures IsLeast(s, lt, x)
  {
    var y :| y in s;
    if s - {y} == {} then
      assert forall z :: z in s ==> z == y by {
        forall z | z in s ensures z == y { assert z !in s - {y}; }
      }
      y
    else
      var m := Least(s - {y}, lt);
      var x := if lt(y, m) then y else m;
      assert forall z :: z in s && z != x ==> lt(x, z) by {
        forall z | z in s && z != x ensures lt(x, z) {
          assert y == m || lt(y, m) || lt(m, y);
          if z != y { assert z in s - {y}; }
        }
      }
      x
  }

  lemma LeastIsUnique(s: set<string>, lt: (string, string) -> bool, x: string)
    requires StrictTotal(lt) && IsLeast(s, lt, x)
    ensures x == Least(s, lt)
  {
    var m := Least(s, lt);
    assert lt(x, m) && lt(m, x) ==> lt(x, x);
  }

  /** Repeatedly take the least ready package. */
  ghost function TopoOrder(g: Graph, taken: set<string>, lt: (string, string) -> bool): seq<string>
    requires StrictTotal(lt)
    decreases |g.Keys - taken|
  {
    if Ready(g, taken) == {} then []
    else
      var x := Least(Ready(g, taken), lt);
      assert g.Keys - taken == (g.Keys - (taken + {x})) + {x};
      [x] + TopoOrder(g, taken + {x}, lt)
  }

  /** The head of an ascending queue is the least of its elements. */
  lemma HeadIsLeast(s: seq<string>, lt: (string, string) -> bool)
    requires StrictTotal(lt) && Ascending(s, lt) && s != []
    ensures IsLeast(Elements(s), lt, s[0])
  {
    forall y | y in Elements(s) && y != s[0] ensures lt(s[0], y) {
      var j :| 0 <= j < |s| && s[j] == y;
    }
  }

  /** What has been taken is the beginning of the specification's order. */
  ghost predicate OnCourse(g: Graph, order: seq<string>, lt: (string, string) -> bool)
    requires StrictTotal(lt)
  {
    order + TopoOrder(g, Elements(order), lt) == TopoOrder(g, {}, lt)
  }

  lemma OnCourseAtStart(g: Graph, lt: (string, string) -> bool)
    requires StrictTotal(lt)
    ensures OnCourse(g, [], lt)
  {
    var none: seq<string> := [];
    assert Elements(none) == {};
  }

  lemma OnCourseAtEnd(g: Graph, order: seq<string>, lt: (string, string) -> bool)
    requires StrictTotal(lt) && OnCourse(g, order, lt) && Ready(g, Elements(order)) == {}
    ensures order == TopoOrder(g, {}, lt)
  {
  }

  /** One turn of the loop takes the package the specification takes. */
  lemma TopoStep(g: Graph, order: seq<string>, queue: seq<string>, lt: (string, string) -> bool)
    requires StrictTotal(lt) && Ascending(queue, lt) && queue != []
    requires Elements(queue) == Ready(g, Elements(order)) && OnCourse(g, order, lt)
    ensures OnCourse(g, order + [queue[0]], lt)
  {
    HeadIsLeast(queue, lt);
    LeastIsUnique(Ready(g, Elements(order)), lt, queue[0]);
    assert Elements(order + [queue[0]]) == Elements(order) + {queue[0]};
  }

  method SortQueue(queue: seq<string>, lt: (string, string) -> bool, ghost s: set<string>) returns (sorted: seq<string>)
    requires StrictTotal(lt) && Lists(queue, s)
    ensures Lists(sorted, s) && Ascending(sorted, lt)
  {
    SortAscends(queue, lt);
    sorted := Sort(queue, lt);
    AscendingIsDistinct(sorted, lt);
  }

  /** The sorted-queue loop computes the specification's order. */
  method TopoSort(g: Graph, rev: Graph, lt: (string, string) -> bool) returns (order: seq<string>)
    requires StrictTotal(lt) && rev.Keys == g.Keys && forall d :: d in g ==> rev[d] == Dependents(g, d)
    ensures order == TopoOrder(g, {}, lt)
  {
    var degree := Degrees(g);
    var queue := Sources(g, degree);
    queue := SortQueue(queue, lt, Ready(g, {}));
    order := [];
    assert Elements(order) == {};
    OnCourseAtStart(g, lt);
    while queue != []
      invariant Taking(g, order, degree, queue) && Ascending(queue, lt) && OnCourse(g, order, lt)
      decreases |g.Keys - Elements(order)|
    {
      var current := queue[0];
      TopoStep(g, order, queue, lt);
      ListsTail(queue, Ready(g, Elements(order)));
      degree, queue := Relax(g, rev[current], current, Elements(order), degree, queue[1..]);
      queue := SortQueue(queue, lt, Ready(g, Elements(order) + {current}));
      TakeOne(g, order, current);
      order := order + [current];
    }
    OnCourseAtEnd(g, order, lt);
  }

  // ---------------------------------------------------------------- what the order is

  /** Every topological listing of the graph: each package once, dependencies first. */
  ghost predicate Topological(g: Graph, s: seq<string>) {
    Ordered(g, s) && Elements(s) == g.Keys
  }

  ghost predicate Exhausted(g: Graph, s: seq<string>) {
    Ordered(g, s) && DownClosed(g, Elements(s)) && Ready(g, Elements(s)) == {}
  }

  lemma TopoUnfold(g: Graph, order: seq<string>, lt: (string, string) -> bool) returns (x: string)
    requires StrictTotal(lt) && Ready(g, Elements(order)) != {}
    ensures x == Least(Ready(g, Elements(order)), lt) && Elements(order + [x]) == Elements(order) + {x}
    ensures order + TopoOrder(g, Elements(order), lt) == (order + [x]) + TopoOrder(g, Elements(order + [x]), lt)
  {
    x := Least(Ready(g, Elements(order)), lt);
    assert Elements(order + [x]) == Elements(order) + {x};
  }

  lemma {:induction false} TopoExtends(g: Graph, order: seq<string>, lt: (string, string) -> bool)
    requires StrictTotal(lt) && Ordered(g, order) && DownClosed(g, Elements(order))
    ensures Exhausted(g, order + TopoOrder(g, Elements(order), lt))
    decreases |g.Keys - Elements(order)|
  {
    if Ready(g, Elements(order)) == {} {
      assert order + TopoOrder(g, Elements(order), lt) == order;
    } else {
      var x := TopoUnfold(g, order, lt);
      TakeOne(g, order, x);
      TopoExtends(g, order + [x], lt);
    }
  }

  /** On a graph without cycles the order lists every package once, dependencies first. */
  lemma TopoIsTopological(g: Graph, lt: (string, string) -> bool)
    requires StrictTotal(lt) && Closed(g) && !Cyclic(g)
    ensures Topological(g, TopoOrder(g, {}, lt))
  {
    var empty: seq<string> := [];
    assert Elements(empty) == {};
    TopoExtends(g, empty, lt);
    var p := TopoOrder(g, {}, lt);
    assert empty + p == p;
    RestIsStuck(g, Elements(p));
    if g.Keys - Elements(p) != {} {
      StuckHasCycle(g, g.Keys - Elements(p));
    } else {
      assert Elements(p) == g.Keys;
    }
  }

  ghost predicate LexAtMost(p: seq<string>, t: seq<string>, lt: (string, string) -> bool) {
    || p == t
    || exists k :: 0 <= k < |p| && k < |t| && p[..k] == t[..k] && lt(p[k], t[k])
  }

  /** The next entry of any topological listing is ready once its prefix is taken. */
  lemma NextIsReady(g: Graph, t: seq<string>, k: nat)
    requires Closed(g) && Topological(g, t) && k < |t|
    ensures t[k] in Ready(g, Elements(t[..k]))
  {
    assert t[k] in Elements(t);
    forall d | d in g[t[k]] ensures d in Elements(t[..k]) {
      assert d in Elements(t);
      var j :| 0 <= j < |t| && t[j] == d;
      assert j < k;
    }
  }

  lemma NothingAfterAll(g: Graph, t: seq<string>, lt: (string, string) -> bool)
    requires StrictTotal(lt) && Topological(g, t)
    ensures TopoOrder(g, Elements(t), lt) == []
  {
    assert Ready(g, g.Keys) == {};
  }

  /** The greedy choice never comes after the next entry of another listing. */
  lemma GreedyHead(g: Graph, t: seq<string>, k: nat, lt: (string, string) -> bool) returns (x: string, rest: seq<string>)
    requires StrictTotal(lt) && Closed(g) && Topological(g, t) && k < |t|
    ensures TopoOrder(g, Elements(t[..k]), lt) == [x] + rest
    ensures lt(x, t[k]) || (x == t[k] && rest == TopoOrder(g, Elements(t[..k + 1]), lt))
  {
    NextIsReady(g, t, k);
    x := Least(Ready(g, Elements(t[..k])), lt);
    rest := TopoOrder(g, Elements(t[..k]) + {x}, lt);
    assert t[..k + 1] == t[..k] + [t[k]];
    assert Elements(t[..k + 1]) == Elements(t[..k]) + {t[k]};
  }

  lemma {:induction false} LexLeastFrom(g: Graph, t: seq<string>, k: nat, lt: (string, string) -> bool)
    requires StrictTotal(lt) && Closed(g) && Topological(g, t) && k <= |t|
    ensures LexAtMost(TopoOrder(g, Elements(t[..k]), lt), t[k..], lt)
    decreases |t| - k
  {
    if k == |t| {
      assert t[..k] == t && t[k..] == [];
      NothingAfterAll(g, t, lt);
    } else {
      LexLeastFrom(g, t, k + 1, lt);
      LexLeastStep(g, t, k, lt);
    }
  }

  lemma LexLeastStep(g: Graph, t: seq<string>, k: nat, lt: (string, string) -> bool)
    requires StrictTotal(lt) && Closed(g) && Topological(g, t) && k < |t|
    requires LexAtMost(TopoOrder(g, Elements(t[..k + 1]), lt), t[k + 1..], lt)
    ensures LexAtMost(TopoOrder(g, Elements(t[..k]), lt), t[k..], lt)
  {
    var x, rest := GreedyHead(g, t, k, lt);
    assert t[k..] == [t[k]] + t[k + 1..];
    LexStep(x, rest, t[k], t[k + 1..], lt);
  }

  lemma LexStep(x: string, p: seq<string>, y: string, t: seq<string>, lt: (string, string) -> bool)
    requires lt(x, y) || (x == y && LexAtMost(p, t, lt))
    ensures LexAtMost([x] + p, [y] + t, lt)
  {
    if lt(x, y) { LexHead(x, p, y, t, lt); } else { LexCons(x, p, t, lt); }
  }

  lemma LexHead(x: string, p: seq<string>, y: string, t: seq<string>, lt: (string, string) -> bool)
    requires lt(x, y)
    ensures LexAtMost([x] + p, [y] + t, lt)
  {
    var a, b := [x] + p, [y] + t;
    assert a[..0] == b[..0] && lt(a[0], b[0]);
  }

  lemma LexCons(x: string, p: seq<string>, t: seq<string>, lt: (string, string) -> bool)
    requires LexAtMost(p, t, lt)
    ensures LexAtMost([x] + p, [x] + t, lt)
  {
    if p != t {
      var k :| 0 <= k < |p| && k < |t| && p[..k] == t[..k] && lt(p[k], t[k]);
      assert ([x] + p)[..k + 1] == [x] + p[..k] == [x] + t[..k] == ([x] + t)[..k + 1];
      assert lt(([x] + p)[k + 1], ([x] + t)[k + 1]);
    }
  }

  /** The order is the name-least of all topological listings. */
  lemma TopoIsLexLeast(g: Graph, t: seq<string>, lt: (string, string) -> bool)
    requires StrictTotal(lt) && Closed(g) && Topological(g, t)
    ensures LexAtMost(TopoOrder(g, {}, lt), t, lt)
  {
    assert Elements(t[..0]) == {} && t[0..] == t;
    LexLeastFrom(g, t, 0, lt);
  }

  // ---------------------------------------------------------------- the closure as a graph

  /** The graph on the closure, with dependencies outside it dropped. */
  ghost function Below(g: Graph, c: set<string>): Graph
    requires c <= g.Keys
  {
    map n | n in c :: g[n] * c
  }

  lemma BelowIsAcyclic(g: Graph, c: set<string>)
    requires c <= g.Keys && !Cyclic(g)
    ensures Closed(Below(g, c)) && !Cyclic(Below(g, c))
  {
    forall p | IsCycle(Below(g, c), p) ensures false {
      assert forall k :: 0 <= k < |p| - 1 ==> p[k + 1] in Below(g, c)[p[k]];
      assert IsCycle(g, p);
    }
  }

  /** In the closure only the seed waits for nothing. */
  lemma OnlySeedIsReady(g: Graph, seed: string)
    requires Closed(g) && !Cyclic(g) && seed in g
    ensures Ready(Below(g, Closure(g, seed)), {}) == {seed}
  {
    var c := Closure(g, seed);
    var b := Below(g, c);
    ReachesSelf(g, seed);
    forall n | n in c && n != seed ensures b[n] != {} {
      var d := ReachesUnfold(g, n, seed);
      assert d in b[n];
    }
    forall d | d in b[seed] ensures false {
      var p :| Leads(g, p, d, seed);
      assert IsCycle(g, [seed] + p);
    }
  }
}
