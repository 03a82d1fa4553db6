/**
 The task-plan validator of planner/budget.py: an explicit-stack, two-colour
 depth-first search over the dependency graph, its recursive reading, and the
 proof that it returns a dependency order exactly when the graph has no cycle.
 */
module TaskDag {
  import opened Prelude

  type Graph = map<string, seq<string>>

  datatype DagError = IncompletePlan | BadCriteria | DuplicateDependency | UnknownDependency | DependencyCycle

  // ---------------------------------------------------------------- order of the roots

  /** Lexicographic order by code point, the order in which plain text is sorted. */
  predicate LexLeq(a: string, b: string) {
    a == [] || (b != [] && (a[0] < b[0] || (a[0] == b[0] && LexLeq(a[1..], b[1..]))))
  }

  lemma {:induction false} LexTotal(a: string, b: string)
    ensures LexLeq(a, b) || LexLeq(b, a)
    ensures LexLeq(a, b) && LexLeq(b, a) ==> a == b
  {
    if a != [] && b != [] && a[0] == b[0] {
      LexTotal(a[1..], b[1..]);
      assert a == [a[0]] + a[1..] && b == [b[0]] + b[1..];
    }
  }

  lemma {:induction false} LexTransitive(a: string, b: string, c: string)
    requires LexLeq(a, b) && LexLeq(b, c)
    ensures LexLeq(a, c)
  {
    if a != [] && a[0] == b[0] == c[0] {
      LexTransitive(a[1..], b[1..], c[1..]);
    }
  }

  predicate Least(x: string, keys: set<string>) {
    x in keys && forall y | y in keys :: LexLeq(x, y)
  }

  lemma {:induction false} LeastExists(keys: set<string>) returns (x: string)
    requires keys != {}
    ensures Least(x, keys)
  {
    var k :| k in keys;
    x := k;
    LexTotal(k, k);
    if keys != {k} {
      var y := LeastExists(keys - {k});
      LexTotal(k, y);
      if !LexLeq(k, y) {
        x := y;
      }
      forall z | z in keys ensures LexLeq(x, z) {
        LexTotal(z, z);
        if x == k && z != k { LexTransitive(k, y, z); }
      }
    }
  }

  lemma LeastUnique(keys: set<string>)
    ensures forall x, y | Least(x, keys) && Least(y, keys) :: x == y
  {
    forall x, y | Least(x, keys) && Least(y, keys) ensures x == y {
      LexTotal(x, y);
    }
  }

  /** `sorted(graph)`: the keys in increasing order. */
  function SortedKeys(keys: set<string>): (xs: seq<string>)
    ensures forall k :: k in keys <==> k in xs
    ensures forall i, j :: 0 <= i < j < |xs| ==> LexLeq(xs[i], xs[j]) && xs[i] != xs[j]
  {
    if keys == {} then [] else
      assert exists x :: Least(x, keys) by { var x := LeastExists(keys); }
      LeastUnique(keys);
      var x :| Least(x, keys);
      [x] + SortedKeys(keys - {x})
  }

  // ---------------------------------------------------------------- graphs, chains and orders

  /** Every dependency is itself a task of the plan. */
  predicate Closed(g: Graph) {
    forall n | n in g :: forall d | d in g[n] :: d in g
  }

  predicate Within(s: seq<string>, g: Graph) {
    forall n | n in s :: n in g
  }

  predicate Apart(s: seq<string>, t: seq<string>) {
    forall n | n in s :: n !in t
  }

  /** Consecutive entries are a task and one of its dependencies. */
  ghost predicate Chain(g: Graph, p: seq<string>) {
    forall i | 0 <= i < |p| - 1 :: p[i] in g && p[i + 1] in g[p[i]]
  }

  ghost predicate Cycle(g: Graph, p: seq<string>) {
    |p| >= 2 && Chain(g, p) && p[0] == p[|p| - 1]
  }

  ghost predicate HasCycle(g: Graph) {
    exists p :: Cycle(g, p)
  }

  /** No repetition, and every dependency of an entry stands before it. */
  ghost predicate DependencyOrder(g: Graph, r: seq<string>) {
    && Distinct(r)
    && Within(r, g)
    && forall i | 0 <= i < |r| :: forall d | d in g[r[i]] :: d in r[..i]
  }

  ghost predicate Covers(g: Graph, r: seq<string>) {
    forall n | n in g :: n in r
  }

  // ---------------------------------------------------------------- the recursive search

  ghost function Unopened(g: Graph, path: seq<string>): set<string> {
    set n | n in g && n !in path
  }

  /** Recursive post-order search; `path` holds the tasks still being visited, None reports a cycle. */
  ghost function Visit(g: Graph, node: string, path: seq<string>, done: seq<string>): Option<seq<string>>
    requires Closed(g) && node in g
    decreases Unopened(g, path), 0, 0
  {
    if node in path then None
    else if node in done then Some(done)
    else
      assert node in Unopened(g, path) && node !in Unopened(g, path + [node]);
      assert Unopened(g, path + [node]) <= Unopened(g, path);
      match VisitAll(g, g[node], path + [node], done)
      case None => None
      case Some(r) => Some(r + [node])
  }

  ghost function VisitAll(g: Graph, nodes: seq<string>, path: seq<string>, done: seq<string>): Option<seq<string>>
    requires Closed(g) && Within(nodes, g)
    decreases Unopened(g, path), 1, |nodes|
  {
    if nodes == [] then Some(done)
    else match Visit(g, nodes[0], path, done)
      case None => None
      case Some(r) => VisitAll(g, nodes[1..], path, r)
  }

  /** The order the validator promises: post-order over the sorted tasks. */
  ghost function PostOrder(g: Graph): Option<seq<string>>
    requires Closed(g)
  {
    VisitAll(g, SortedKeys(g.Keys), [], [])
  }

  // ---------------------------------------------------------------- success gives an order

  ghost predicate Extends(done: seq<string>, r: seq<string>) {
    |done| <= |r| && r[..|done|] == done
  }

  lemma {:induction false} VisitOrders(g: Graph, node: string, path: seq<string>, done: seq<string>)
    requires Closed(g) && node in g
    requires Apart(path, done)
    ensures match Visit(g, node, path, done)
            case None => true
            case Some(r) => Apart(path, r) && Extends(done, r) && node in r
                            && (DependencyOrder(g, done) ==> DependencyOrder(g, r))
    decreases Unopened(g, path), 0, 0
  {
    if node !in path && node !in done {
      assert node in Unopened(g, path) && node !in Unopened(g, path + [node]);
      assert Unopened(g, path + [node]) <= Unopened(g, path);
      VisitAllOrders(g, g[node], path + [node], done);
      var below := VisitAll(g, g[node], path + [node], done);
      if below.Some? {
        var r := below.value + [node];
        assert node in path + [node];
        assert r[..|below.value|] == below.value;
        if DependencyOrder(g, done) {
          forall i | 0 <= i < |r| ensures forall d | d in g[r[i]] :: d in r[..i] {
            if i < |below.value| {
              assert r[..i] == below.value[..i];
            } else {
              assert r[..i] == below.value;
            }
          }
        }
        forall n | n in path ensures n !in r {
          assert n in path + [node];
        }
        assert r[|r| - 1] == node;
      }
    }
  }

  lemma {:induction false} VisitAllOrders(g: Graph, nodes: seq<string>, path: seq<string>, done: seq<string>)
    requires Closed(g) && Within(nodes, g)
    requires Apart(path, done)
    ensures match VisitAll(g, nodes, path, done)
            case None => true
            case Some(r) => Apart(path, r) && Extends(done, r) && (forall n | n in nodes :: n in r)
                            && (DependencyOrder(g, done) ==> DependencyOrder(g, r))
    decreases Unopened(g, path), 1, |nodes|
  {
    if nodes != [] {
      VisitOrders(g, nodes[0], path, done);
      var first := Visit(g, nodes[0], path, done);
      if first.Some? {
        VisitAllOrders(g, nodes[1..], path, first.value);
        var rest := VisitAll(g, nodes[1..], path, first.value);
        if rest.Some? {
          assert nodes[0] in rest.value[..|first.value|];
          assert rest.value[..|done|] == first.value[..|done|];
          forall n | n in nodes ensures n in rest.value {
            assert n == nodes[0] || n in nodes[1..];
          }
        }
      }
    }
  }

  // ---------------------------------------------------------------- failure exhibits a cycle

  lemma {:induction false} VisitFindsCycle(g: Graph, node: string, path: seq<string>, done: seq<string>)
    requires Closed(g) && node in g && Within(path, g)
    requires Chain(g, path + [node])
    requires Visit(g, node, path, done).None?
    ensures HasCycle(g)
    decreases Unopened(g, path), 0, 0
  {
    if node in path {
      var i :| 0 <= i < |path| && path[i] == node;
      var p := (path + [node])[i..];
      assert Cycle(g, p) by {
        forall k | 0 <= k < |p| - 1 ensures p[k] in g && p[k + 1] in g[p[k]] {
          assert p[k] == (path + [node])[i + k] && p[k + 1] == (path + [node])[i + k + 1];
        }
      }
    } else {
      assert node in Unopened(g, path) && node !in Unopened(g, path + [node]);
      assert Unopened(g, path + [node]) <= Unopened(g, path);
      VisitAllFindsCycle(g, g[node], path + [node], done);
    }
  }

  lemma {:induction false} VisitAllFindsCycle(g: Graph, nodes: seq<string>, path: seq<string>, done: seq<string>)
    requires Closed(g) && Within(nodes, g) && Within(path, g)
    requires Chain(g, path)
    requires path != [] ==> forall n | n in nodes :: n in g[path[|path| - 1]]
    requires VisitAll(g, nodes, path, done).None?
    ensures HasCycle(g)
    decreases Unopened(g, path), 1, |nodes|
  {
    if nodes != [] {
      var first := Visit(g, nodes[0], path, done);
      assert nodes[0] in nodes;
      if first.None? {
        var p := path + [nodes[0]];
        assert path != [] ==> path[|path| - 1] in path;
        assert forall i | 0 <= i < |path| :: p[i] == path[i];
        VisitFindsCycle(g, nodes[0], path, done);
      } else {
        assert forall n | n in nodes[1..] :: n in nodes;
        VisitAllFindsCycle(g, nodes[1..], path, first.value);
      }
    }
  }

  /** A covering dependency order leaves no room for a cycle: positions fall along every chain. */
  lemma {:induction false} ChainDescends(g: Graph, r: seq<string>, p: seq<string>, i: nat)
    requires DependencyOrder(g, r)
    requires |p| >= 1 && Chain(g, p)
    requires i < |r| && r[i] == p[0]
    ensures |p| >= 2 ==> p[|p| - 1] in r[..i]
    decreases |p|
  {
    if |p| >= 2 {
      assert p[1] in g[r[i]];
      var j :| 0 <= j < i && r[j] == p[1];
      ChainDescends(g, r, p[1..], j);
      if |p| >= 3 {
        assert r[..j] <= r[..i];
      }
    }
  }

  lemma OrderExcludesCycle(g: Graph, r: seq<string>)
    requires DependencyOrder(g, r) && Covers(g, r)
    ensures !HasCycle(g)
  {
    if HasCycle(g) {
      var p :| Cycle(g, p);
      assert p[0] in g && p[0] in r;
      var i :| 0 <= i < |r| && r[i] == p[0];
      ChainDescends(g, r, p, i);
    }
  }

  /**
   The search succeeds exactly on the acyclic plans, and then lists every task once with
   all its dependencies before it.
   */
  lemma PostOrderDecides(g: Graph)
    requires Closed(g)
    ensures PostOrder(g).None? <==> HasCycle(g)
    ensures PostOrder(g).Some? ==> DependencyOrder(g, PostOrder(g).value) && Covers(g, PostOrder(g).value)
  {
    var roots := SortedKeys(g.Keys);
    VisitAllOrders(g, roots, [], []);
    if PostOrder(g).None? {
      VisitAllFindsCycle(g, roots, [], []);
    } else {
      OrderExcludesCycle(g, PostOrder(g).value);
    }
  }

  // ---------------------------------------------------------------- the explicit stack

  /** A stack entry: a task, and whether it is being left (its dependencies are done). */
  type Entry = (string, bool)

  /** The tasks being left, bottom of the stack first: the dependency path of the search. */
  ghost function Opened(stack: seq<Entry>): seq<string> {
    if stack == [] then []
    else
      var top := stack[|stack| - 1];
      Opened(stack[..|stack| - 1]) + (if top.1 then [top.0] else [])
  }

  ghost predicate StackWithin(stack: seq<Entry>, g: Graph) {
    forall e | e in stack :: e.0 in g
  }

  /** What the recursive search makes of a stack: the work that is still to be done. */
  ghost function Resume(g: Graph, stack: seq<Entry>, done: seq<string>): Option<seq<string>>
    requires Closed(g) && StackWithin(stack, g)
    decreases |stack|
  {
    if stack == [] then Some(done)
    else
      var top, rest := stack[|stack| - 1], stack[..|stack| - 1];
      if top.1 then Resume(g, rest, done + [top.0])
      else match Visit(g, top.0, Opened(rest), done)
        case None => None
        case Some(r) => Resume(g, rest, r)
  }

  /** The entries pushed for a list of dependencies: last dependency first, finished ones left out. */
  ghost function Pushed(deps: seq<string>, finished: set<string>): seq<Entry> {
    if deps == [] then []
    else Pushed(deps[1..], finished) + (if deps[0] in finished then [] else [(deps[0], false)])
  }

  lemma {:induction false} PushedWithin(g: Graph, base: seq<Entry>, deps: seq<string>, finished: set<string>)
    requires StackWithin(base, g) && Within(deps, g)
    ensures StackWithin(base + Pushed(deps, finished), g)
    ensures Opened(base + Pushed(deps, finished)) == Opened(base)
  {
    if deps == [] {
      assert base + Pushed(deps, finished) == base;
    } else {
      PushedWithin(g, base, deps[1..], finished);
      var lower := base + Pushed(deps[1..], finished);
      if deps[0] in finished {
        assert base + Pushed(deps, finished) == lower;
      } else {
        var stack := base + Pushed(deps, finished);
        assert stack == lower + [(deps[0], false)];
        assert stack[..|stack| - 1] == lower;
      }
    }
  }

  /** Working off the pushed entries is the recursive visit of all dependencies. */
  lemma {:induction false} ResumePushed(g: Graph, base: seq<Entry>, deps: seq<string>, finished: set<string>,
                                        done: seq<string>)
    requires Closed(g) && StackWithin(base, g) && Within(deps, g)
    requires Apart(Opened(base), done)
    requires forall n | n in finished :: n in done
    requires StackWithin(base + Pushed(deps, finished), g)
    ensures Resume(g, base + Pushed(deps, finished), done)
            == match VisitAll(g, deps, Opened(base), done)
               case None => None
               case Some(r) => Resume(g, base, r)
    decreases |deps|
  {
    if deps == [] {
      assert base + Pushed(deps, finished) == base;
    } else {
      PushedWithin(g, base, deps[1..], finished);
      var lower := base + Pushed(deps[1..], finished);
      var stack := base + Pushed(deps, finished);
      VisitOrders(g, deps[0], Opened(base), done);
      if deps[0] in finished {
        assert stack == lower;
        assert Visit(g, deps[0], Opened(base), done) == Some(done);
        ResumePushed(g, base, deps[1..], finished, done);
      } else {
        assert stack == lower + [(deps[0], false)] && stack[..|stack| - 1] == lower;
        var first := Visit(g, deps[0], Opened(base), done);
        if first.Some? {
          forall n | n in finished ensures n in first.value {
            assert n in first.value[..|done|];
          }
          ResumePushed(g, base, deps[1..], finished, first.value);
        }
      }
    }
  }

  predicate GoodCriteria(criteria: seq<string>) {
    criteria != [] && Distinct(criteria)
  }

  predicate KnownDependencies(g: Graph, t: string)
    requires t in g
  {
    forall d | d in g[t] :: d in g
  }

  ghost predicate GoodDependencies(g: Graph, t: string)
    requires t in g
  {
    Distinct(g[t]) && KnownDependencies(g, t)
  }

  ghost predicate WellFormedPlan(dependencies: Graph, criteria: map<string, seq<string>>) {
    && dependencies != map[]
    && dependencies.Keys == criteria.Keys
    && (forall t | t in criteria :: GoodCriteria(criteria[t]))
    && (forall t | t in dependencies :: GoodDependencies(dependencies, t))
  }

  /** What holds each time the inner loop looks at its stack. */
  ghost predicate Searching(g: Graph, stack: seq<Entry>, visiting: set<string>, visited: set<string>,
                            result: seq<string>, target: Option<seq<string>>)
    requires Closed(g)
  {
    && StackWithin(stack, g)
    && visited == Elements(result) && visiting == Elements(Opened(stack))
    && Distinct(Opened(stack)) && Within(Opened(stack), g) && Apart(Opened(stack), result)
    && Resume(g, stack, result) == target
  }

  lemma LeaveKeeps(g: Graph, stack: seq<Entry>, visiting: set<string>, visited: set<string>,
                   result: seq<string>, target: Option<seq<string>>)
    requires Closed(g) && Searching(g, stack, visiting, visited, result, target)
    requires stack != [] && stack[|stack| - 1].1
    ensures var node := stack[|stack| - 1].0;
            && node in visiting && node !in visited && node in g
            && Searching(g, stack[..|stack| - 1], visiting - {node}, visited + {node}, result + [node], target)
  {
    var rest, node := stack[..|stack| - 1], stack[|stack| - 1].0;
    var path := Opened(stack);
    assert path == Opened(rest) + [node];
    assert path[|path| - 1] == node && node in path;
    forall n | n in Opened(rest) ensures n in path && n != node {
      var i :| 0 <= i < |Opened(rest)| && Opened(rest)[i] == n;
      assert path[i] == n;
    }
    forall i, j | 0 <= i < j < |Opened(rest)| ensures Opened(rest)[i] != Opened(rest)[j] {
      assert path[i] == Opened(rest)[i] && path[j] == Opened(rest)[j];
    }
    assert Elements(Opened(rest)) == visiting - {node} by {
      forall n | n in path && n != node ensures n in Opened(rest) {}
    }
    assert Elements(result + [node]) == visited + {node};
  }

  lemma SkipKeeps(g: Graph, stack: seq<Entry>, visiting: set<string>, visited: set<string>,
                  result: seq<string>, target: Option<seq<string>>)
    requires Closed(g) && Searching(g, stack, visiting, visited, result, target)
    requires stack != [] && !stack[|stack| - 1].1
    ensures stack[|stack| - 1].0 in visiting ==> target == None
    ensures stack[|stack| - 1].0 !in visiting && stack[|stack| - 1].0 in visited
            ==> Searching(g, stack[..|stack| - 1], visiting, visited, result, target)
  {
    assert Opened(stack) == Opened(stack[..|stack| - 1]);
  }

  lemma ExpandKeeps(g: Graph, stack: seq<Entry>, visiting: set<string>, visited: set<string>,
                    result: seq<string>, target: Option<seq<string>>)
    requires Closed(g) && Searching(g, stack, visiting, visited, result, target)
    requires stack != [] && !stack[|stack| - 1].1
    requires stack[|stack| - 1].0 !in visiting && stack[|stack| - 1].0 !in visited
    ensures var node := stack[|stack| - 1].0;
            && node in g
            && Searching(g, stack[..|stack| - 1] + [(node, true)] + Pushed(g[node], visited),
                         visiting + {node}, visited, result, target)
  {
    var rest, node := stack[..|stack| - 1], stack[|stack| - 1].0;
    assert stack[|stack| - 1] in stack;
    var base := rest + [(node, true)];
    assert base[..|rest|] == rest;
    assert Opened(stack) == Opened(rest);
    assert Opened(base) == Opened(rest) + [node];
    assert Elements(Opened(base)) == visiting + {node};
    PushedWithin(g, base, g[node], visited);
    ResumePushed(g, base, g[node], visited, result);
  }

  /** The dependencies still to be searched, pushed in reverse so that they come off in declared order. */
  method PushUnvisited(base: seq<Entry>, deps: seq<string>, visited: set<string>) returns (stack: seq<Entry>)
    ensures stack == base + Pushed(deps, visited)
  {
    stack := base;
    var k := |deps|;
    while k > 0
      invariant 0 <= k <= |deps|
      invariant stack == base + Pushed(deps[k..], visited)
    {
      k := k - 1;
      assert deps[k..][0] == deps[k] && deps[k..][1..] == deps[k + 1..];
      if deps[k] !in visited {
        stack := stack + [(deps[k], false)];
      }
    }
    assert deps[0..] == deps;
  }

  /** The depth-first loop proper: both colours, the stack and the result are updated in place. */
  method SearchTask(graph: Graph, task: string, done: seq<string>) returns (r: Option<seq<string>>)
    requires Closed(graph) && task in graph && task !in done
    ensures r == Visit(graph, task, [], done)
  {
    var result := done;
    var visiting: set<string> := {};
    var visited: set<string> := set n | n in done;
    ghost var target := Visit(graph, task, [], result);
    var stack: seq<Entry> := [(task, false)];
    assert stack[..0] == [];
    while stack != []
      invariant Searching(graph, stack, visiting, visited, result, target)
      decreases graph.Keys - visited - visiting, |stack|
    {
      ghost var before := stack;
      var (node, leaving) := stack[|stack| - 1];
      stack := stack[..|stack| - 1];
      if leaving {
        LeaveKeeps(graph, before, visiting, visited, result, target);
        assert graph.Keys - (visited + {node}) - (visiting - {node}) == graph.Keys - visited - visiting;
        visiting := visiting - {node};
        visited := visited + {node};
        result := result + [node];
        continue;
      }
      SkipKeeps(graph, before, visiting, visited, result, target);
      if node in visiting {
        return None;
      }
      if node in visited {
        continue;
      }
      ExpandKeeps(graph, before, visiting, visited, result, target);
      visiting := visiting + {node};
      stack := PushUnvisited(stack + [(node, true)], graph[node], visited);
    }
    r := Some(result);
  }

  /** Each task in turn that no earlier search has finished. */
  method SearchPlan(graph: Graph, roots: seq<string>) returns (r: Result<seq<string>, DagError>)
    requires Closed(graph) && Within(roots, graph)
    ensures r == match VisitAll(graph, roots, [], [])
                 case None => Err(DependencyCycle)
                 case Some(order) => Ok(order)
  {
    var result: seq<string> := [];
    for i := 0 to |roots|
      invariant VisitAll(graph, roots, [], []) == VisitAll(graph, roots[i..], [], result)
    {
      var task := roots[i];
      assert roots[i..][0] == task && roots[i..][1..] == roots[i + 1..];
      if task !in result {
        var found := SearchTask(graph, task, result);
        if found.None? {
          return Err(DependencyCycle);
        }
        result := found.value;
      }
    }
    r := Ok(result);
  }

  method CheckDependencies(dependencies: Graph) returns (r: Option<DagError>)
    ensures r.None? <==> forall t | t in dependencies :: GoodDependencies(dependencies, t)
    ensures r == Some(DuplicateDependency) ==> exists t | t in dependencies :: !Distinct(dependencies[t])
    ensures r == Some(UnknownDependency) ==> exists t | t in dependencies :: !KnownDependencies(dependencies, t)
    ensures r.Some? ==> r.value in {DuplicateDependency, UnknownDependency}
  {
    var todo := dependencies.Keys;
    while todo != {}
      invariant todo <= dependencies.Keys
      invariant forall t | t in dependencies && t !in todo :: GoodDependencies(dependencies, t)
      decreases |todo|
    {
      var task :| task in todo;
      if !Distinct(dependencies[task]) {
        assert !GoodDependencies(dependencies, task);
        return Some(DuplicateDependency);
      }
      if !KnownDependencies(dependencies, task) {
        assert !GoodDependencies(dependencies, task);
        return Some(UnknownDependency);
      }
      todo := todo - {task};
    }
    r := None;
  }

  method OrderTasks(dependencies: Graph) returns (r: Result<seq<string>, DagError>)
    requires Closed(dependencies)
    ensures r.Err? <==> HasCycle(dependencies)
    ensures r.Err? ==> r.error == DependencyCycle
    ensures r.Ok? ==> PostOrder(dependencies) == Some(r.value)
    ensures r.Ok? ==> DependencyOrder(dependencies, r.value) && Covers(dependencies, r.value)
  {
    PostOrderDecides(dependencies);
    r := SearchPlan(dependencies, SortedKeys(dependencies.Keys));
  }

  /**
   The whole validator: shape errors first, then the search over the sorted tasks. The two
   dependency-shape errors are met in the source's insertion order of the plan, which a map
   does not record, so either may be reported when a plan has both.
   */
  method ValidateTaskDag(dependencies: Graph, criteria: map<string, seq<string>>)
    returns (r: Result<seq<string>, DagError>)
    ensures !WellFormedPlan(dependencies, criteria) <==> r.Err? && r.error != DependencyCycle
    ensures r == Err(IncompletePlan) <==> dependencies == map[] || dependencies.Keys != criteria.Keys
    ensures r == Err(DuplicateDependency) ==> exists t | t in dependencies :: !Distinct(dependencies[t])
    ensures r == Err(UnknownDependency) ==> exists t | t in dependencies :: !KnownDependencies(dependencies, t)
    ensures r == Err(DependencyCycle) ==> HasCycle(dependencies)
    ensures r.Ok? ==> !HasCycle(dependencies)
    ensures r.Ok? ==> Closed(dependencies) && PostOrder(dependencies) == Some(r.value)
    ensures r.Ok? ==> DependencyOrder(dependencies, r.value) && Covers(dependencies, r.value)
  {
    if dependencies == map[] || dependencies.Keys != criteria.Keys {
      return Err(IncompletePlan);
    }
    if exists t | t in criteria.Keys :: !GoodCriteria(criteria[t]) {
      return Err(BadCriteria);
    }
    var shape := CheckDependencies(dependencies);
    if shape.Some? {
      return Err(shape.value);
    }
    assert Closed(dependencies) by {
      forall n | n in dependencies ensures forall d | d in dependencies[n] :: d in dependencies {
        assert GoodDependencies(dependencies, n);
      }
    }
    r := OrderTasks(dependencies);
  }
}
