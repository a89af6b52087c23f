/** The task-dependency graph of a project and the depth-first search the
    dependency rule runs over it to detect circular dependencies. An edge
    `t -> d` means task `t` depends on task `d`. */
module DependencyGraph {
  import opened Wrappers
  import opened Collections

  /** `dependencies` of a project: task id to the ids it depends on. */
  type Dependencies = Dict<seq<string>>

  /** `dependencies.get(t, [])` */
  function Successors(deps: Dependencies, t: string): seq<string> {
    if t in deps.values then deps.values[t] else []
  }

  /** Every id a dependency list names. */
  ghost function Targets(deps: Dependencies): set<string> {
    set t, d | t in deps.values && d in deps.values[t] :: d
  }

  /** `p` walks along dependency edges. */
  ghost predicate IsPath(deps: Dependencies, p: seq<string>) {
    && |p| >= 1
    && forall i :: 0 <= i < |p| - 1 ==> p[i + 1] in Successors(deps, p[i])
  }

  /** A walk that comes back to a node it already passed: a cycle and the
      way from `p[0]` into it. */
  ghost predicate IsLasso(deps: Dependencies, p: seq<string>) {
    && IsPath(deps, p)
    && |p| >= 2
    && p[|p| - 1] in p[..|p| - 1]
  }

  /** Following dependencies from `t` runs into a circular dependency. */
  ghost predicate ReachesCycle(deps: Dependencies, t: string) {
    exists p :: IsLasso(deps, p) && p[0] == t
  }

  /** The first id of `order` from which a circular dependency is reachable. */
  ghost function FirstCyclic(deps: Dependencies, order: seq<string>): Option<string> {
    if order == [] then None
    else if ReachesCycle(deps, order[0]) then Some(order[0])
    else FirstCyclic(deps, order[1..])
  }

  /** `FirstCyclic` names a cyclic id exactly when there is one, and then the
      earliest. */
  lemma {:induction false} FirstCyclicIsFirst(deps: Dependencies, order: seq<string>)
    ensures FirstCyclic(deps, order) == None <==> forall t :: t in order ==> !ReachesCycle(deps, t)
    ensures FirstCyclic(deps, order).Some? ==>
      exists i :: 0 <= i < |order| && order[i] == FirstCyclic(deps, order).value
        && ReachesCycle(deps, order[i]) && forall j :: 0 <= j < i ==> !ReachesCycle(deps, order[j])
  {
    if order != [] && !ReachesCycle(deps, order[0]) {
      FirstCyclicIsFirst(deps, order[1..]);
      assert forall t :: t in order <==> t == order[0] || t in order[1..];
      if FirstCyclic(deps, order[1..]).Some? {
        var i :| 0 <= i < |order[1..]| && order[1..][i] == FirstCyclic(deps, order[1..]).value
          && ReachesCycle(deps, order[1..][i]) && forall j :: 0 <= j < i ==> !ReachesCycle(deps, order[1..][j]);
        assert order[i + 1] == order[1..][i];
        forall j | 0 <= j < i + 1 ensures !ReachesCycle(deps, order[j]) {
          if j > 0 {
            assert order[j] == order[1..][j - 1];
          }
        }
      }
    } else if order != [] {
      assert order[0] in order;
    }
  }

  // ---------------------------------------------------------------------------
  // No cycle below a ranked set of nodes
  // ---------------------------------------------------------------------------

  /** Every dependency of a node of `nodes` is again in `nodes` and has a
      smaller rank. */
  ghost predicate RankedBelow(deps: Dependencies, nodes: set<string>, rank: string -> int) {
    forall x, y :: x in nodes && y in Successors(deps, x) ==> y in nodes && rank(y) < rank(x)
  }

  lemma {:induction false} RankedPathDecreases(deps: Dependencies, nodes: set<string>, rank: string -> int, p: seq<string>)
    requires RankedBelow(deps, nodes, rank)
    requires IsPath(deps, p) && p[0] in nodes
    ensures forall i :: 0 <= i < |p| ==> p[i] in nodes
    ensures forall i, j :: 0 <= i < j < |p| ==> rank(p[j]) < rank(p[i])
    decreases |p|
  {
    if |p| > 1 {
      var front := p[..|p| - 1];
      assert IsPath(deps, front) by {
        forall i | 0 <= i < |front| - 1 ensures front[i + 1] in Successors(deps, front[i]) {
          assert front[i] == p[i] && front[i + 1] == p[i + 1];
        }
      }
      RankedPathDecreases(deps, nodes, rank, front);
      assert p[|p| - 1] in Successors(deps, p[|p| - 2]);
      forall i, j | 0 <= i < j < |p| ensures rank(p[j]) < rank(p[i]) {
        if j < |p| - 1 {
          assert p[i] == front[i] && p[j] == front[j];
        } else if i < |p| - 2 {
          assert p[i] == front[i] && p[|p| - 2] == front[|p| - 2];
        }
      }
    }
  }

  /** A node from which dependencies only go to nodes of smaller rank
      reaches no circular dependency. */
  lemma RankedNoCycle(deps: Dependencies, nodes: set<string>, rank: string -> int, t: string)
    requires RankedBelow(deps, nodes, rank) && t in nodes
    ensures !ReachesCycle(deps, t)
  {
    forall p | IsPath(deps, p) && p[0] == t ensures !IsLasso(deps, p) {
      RankedPathDecreases(deps, nodes, rank, p);
      assert forall m :: 0 <= m < |p| - 1 ==> p[m] != p[|p| - 1];
    }
  }

  // ---------------------------------------------------------------------------
  // The depth-first search
  // ---------------------------------------------------------------------------

  /** Where `x` occurs in `s`. */
  function IndexOf(s: seq<string>, x: string): (i: nat)
    requires x in s
    ensures i < |s| && s[i] == x && x !in s[..i]
  {
    if s[0] == x then 0
    else
      assert s[1..][IndexOf(s[1..], x)] == x;
      var j := IndexOf(s[1..], x);
      assert s[..j + 1] == [s[0]] + s[1..][..j];
      j + 1
  }

  /** Each node of `finished` was finished after all of its dependencies. */
  ghost predicate FinishOrdered(deps: Dependencies, finished: seq<string>) {
    forall i, y :: 0 <= i < |finished| && y in Successors(deps, finished[i]) ==> y in finished[..i]
  }

  /** A node finished after all of its dependencies extends the order. */
  lemma FinishOrderedAppend(deps: Dependencies, finished: seq<string>, t: string)
    requires FinishOrdered(deps, finished)
    requires forall y :: y in Successors(deps, t) ==> y in finished
    ensures FinishOrdered(deps, finished + [t])
  {
    var f := finished + [t];
    forall i, y | 0 <= i < |f| && y in Successors(deps, f[i]) ensures y in f[..i] {
      if i < |finished| {
        assert f[..i] == finished[..i];
      } else {
        assert f[..i] == finished;
      }
    }
  }

  /** No finished node reaches a circular dependency: ranked by position in
      the finish order, every dependency sits lower. */
  lemma FinishedNoCycle(deps: Dependencies, finished: seq<string>, t: string)
    requires NoDuplicates(finished) && FinishOrdered(deps, finished)
    requires t in finished
    ensures !ReachesCycle(deps, t)
  {
    var nodes := set x | x in finished;
    var rank := (x: string) => if x in finished then IndexOf(finished, x) else 0;
    forall x, y | x in nodes && y in Successors(deps, x) ensures y in nodes && rank(y) < rank(x) {
      var i := IndexOf(finished, x);
      assert y in finished[..i];
      var j := IndexOf(finished, y);
      var k :| 0 <= k < i && finished[k] == y;
      assert k == j;
    }
    RankedNoCycle(deps, nodes, rank, t);
  }

  /** What holds between the calls of a search: every node visited is
      either finished or on the recursion stack, `path` walks along edges,
      and each finished node came after its dependencies. */
  ghost predicate Searching(
    deps: Dependencies, universe: set<string>, visited: set<string>, stack: set<string>,
    path: seq<string>, finished: seq<string>)
  {
    && (forall t, d :: t in deps.values && d in deps.values[t] ==> d in universe)
    && visited <= universe
    && (forall x :: x in visited <==> x in finished || x in path)
    && (forall x :: x in stack <==> x in path)
    && NoDuplicates(finished) && NoDuplicates(path)
    && (forall x :: x in finished ==> x !in path)
    && (forall i :: 0 <= i < |path| - 1 ==> path[i + 1] in Successors(deps, path[i]))
    && FinishOrdered(deps, finished)
  }

  /** Entering an unvisited dependency of the top of the stack. */
  lemma SearchEnter(
    deps: Dependencies, universe: set<string>, visited: set<string>, stack: set<string>,
    path: seq<string>, finished: seq<string>, t: string)
    requires Searching(deps, universe, visited, stack, path, finished)
    requires t in universe && t !in visited
    requires path != [] ==> t in Successors(deps, path[|path| - 1])
    ensures Searching(deps, universe, visited + {t}, stack + {t}, path + [t], finished)
  {
    var p := path + [t];
    forall i | 0 <= i < |p| - 1 ensures p[i + 1] in Successors(deps, p[i]) {
      if i < |path| - 1 {
        assert p[i] == path[i] && p[i + 1] == path[i + 1];
      }
    }
  }

  /** Leaving the top of the stack once all its dependencies are finished. */
  lemma SearchLeave(
    deps: Dependencies, universe: set<string>, visited: set<string>, stack: set<string>,
    path: seq<string>, finished: seq<string>, t: string)
    requires Searching(deps, universe, visited, stack, path + [t], finished)
    requires forall y :: y in Successors(deps, t) ==> y in finished
    ensures Searching(deps, universe, visited, stack - {t}, path, finished + [t])
  {
    FinishOrderedAppend(deps, finished, t);
    var p := path + [t];
    forall i | 0 <= i < |path| - 1 ensures path[i + 1] in Successors(deps, path[i]) {
      assert p[i] == path[i] && p[i + 1] == path[i + 1];
    }
    forall i, j | 0 <= i < j < |path| ensures path[i] != path[j] {
      assert p[i] == path[i] && p[j] == path[j];
    }
    assert forall x :: x in p <==> x in path || x == t;
    forall i | 0 <= i < |path| ensures path[i] != t {
      assert p[i] == path[i] && p[|path|] == t;
    }
    assert forall x :: x in finished + [t] <==> x in finished || x == t;
    assert t !in finished;
    forall i, j | 0 <= i < j < |finished + [t]| ensures (finished + [t])[i] != (finished + [t])[j] {
      if j < |finished| {
        assert (finished + [t])[i] == finished[i] && (finished + [t])[j] == finished[j];
      } else {
        assert (finished + [t])[i] in finished;
      }
    }
  }

  /** A dependency of the top of the stack that is itself on the stack closes
      a cycle reachable from the bottom of the stack. */
  lemma StackHitIsCycle(deps: Dependencies, path: seq<string>, d: string)
    requires path != [] && d in path && d in Successors(deps, path[|path| - 1])
    requires forall i :: 0 <= i < |path| - 1 ==> path[i + 1] in Successors(deps, path[i])
    ensures ReachesCycle(deps, path[0])
  {
    var lasso := path + [d];
    assert lasso[..|lasso| - 1] == path;
    assert IsLasso(deps, lasso);
  }

  /** Between searches the stack is empty, so every visited node is
      finished and reaches no circular dependency. */
  lemma VisitedNoCycle(
    deps: Dependencies, universe: set<string>, visited: set<string>, stack: set<string>,
    finished: seq<string>, t: string)
    requires Searching(deps, universe, visited, stack, [], finished) && t in visited
    ensures !ReachesCycle(deps, t)
  {
    FinishedNoCycle(deps, finished, t);
  }

  /** The state of `has_cycle`: the `visited` set shared by all searches of
      one rule run and the `recursion_stack` of the current search. `path`
      is the recursion stack in the order its nodes were entered and
      `finished` lists the nodes whose search returned, in that order. */
  class CycleSearch {
    const deps: Dependencies
    ghost const universe: set<string>
    var visited: set<string>
    var recursionStack: set<string>
    ghost var path: seq<string>
    ghost var finished: seq<string>

    ghost predicate Valid()
      reads this
    {
      Searching(deps, universe, visited, recursionStack, path, finished)
    }

    /** A search over `deps` started from the ids of `tasks`. */
    constructor(deps: Dependencies, tasks: seq<string>)
      ensures Valid()
      ensures this.deps == deps && universe == (set t | t in tasks) + Targets(deps)
      ensures visited == {} && recursionStack == {} && path == [] && finished == []
    {
      this.deps := deps;
      universe := (set t | t in tasks) + Targets(deps);
      visited := {};
      recursionStack := {};
      path := [];
      finished := [];
    }

    /** The fresh `set()` each search starts with as its recursion stack;
        between searches the stack is already empty. */
    method ResetStack()
      requires Valid() && path == []
      modifies this
      ensures Valid() && recursionStack == {}
      ensures visited == old(visited) && path == old(path) && finished == old(finished)
    {
      recursionStack := {};
    }

    /** One round of `for task_id in tasks`: a search with a fresh stack
        when `taskId` is not yet visited. A cycle is reported exactly when
        one is reachable from `taskId`. */
    method SearchFrom(taskId: string) returns (found: bool)
      requires Valid() && path == [] && taskId in universe
      modifies this
      ensures found <==> ReachesCycle(deps, taskId)
      ensures !found ==> Valid() && path == []
    {
      if taskId !in visited {
        ResetStack();
        found := HasCycle(taskId);
        if found {
          assert ([] + [taskId])[0] == taskId;
          return;
        }
      }
      VisitedNoCycle(deps, universe, visited, recursionStack, finished, taskId);
      found := false;
    }

    /** `has_cycle(task_id, visited, recursion_stack)`: marks `taskId`
        visited and on the stack, searches its unvisited dependencies, and
        reports a cycle on the first dependency found on the stack. A cycle
        reported is reachable from the node the current search started at;
        when none is reported, `taskId` is finished, which means no cycle is
        reachable from it. */
    method HasCycle(taskId: string) returns (found: bool)
      requires Valid()
      requires taskId in universe && taskId !in visited
      requires path != [] ==> taskId in Successors(deps, path[|path| - 1])
      modifies this
      decreases universe - visited
      ensures old(visited) <= visited
      ensures found ==> ReachesCycle(deps, (old(path) + [taskId])[0])
      ensures !found ==> Valid() && path == old(path) && taskId in finished && taskId in visited
      ensures !found ==> old(finished) <= finished
    {
      SearchEnter(deps, universe, visited, recursionStack, path, finished, taskId);
      visited := visited + {taskId};
      recursionStack := recursionStack + {taskId};
      path := path + [taskId];
      var succ := Successors(deps, taskId);
      var j := 0;
      while j < |succ|
        invariant 0 <= j <= |succ|
        invariant Valid()
        invariant path == old(path) + [taskId]
        invariant old(visited) + {taskId} <= visited
        invariant old(finished) <= finished
        invariant forall k :: 0 <= k < j ==> succ[k] in finished
      {
        var depTask := succ[j];
        if depTask !in visited {
          var sub := HasCycle(depTask);
          if sub {
            return true;
          }
        } else if depTask in recursionStack {
          StackHitIsCycle(deps, path, depTask);
          assert path[0] == (old(path) + [taskId])[0];
          return true;
        }
        j := j + 1;
      }
      SearchLeave(deps, universe, visited, recursionStack, old(path), finished, taskId);
      recursionStack := recursionStack - {taskId};
      path := old(path);
      finished := finished + [taskId];
      found := false;
    }
  }

  /** Iterates `for task_id in tasks` and starts a search, with an empty
      recursion stack, from every id not yet visited; the first search that
      reports a cycle decides the id named in the error. */
  method FindCyclicTask(deps: Dependencies, tasks: seq<string>) returns (r: Option<string>)
    ensures r == FirstCyclic(deps, tasks)
  {
    var search := new CycleSearch(deps, tasks);
    var i := 0;
    while i < |tasks|
      invariant 0 <= i <= |tasks|
      invariant search.Valid() && search.path == [] && search.deps == deps
      invariant search.universe == (set t | t in tasks) + Targets(deps)
      invariant FirstCyclic(deps, tasks) == FirstCyclic(deps, tasks[i..])
    {
      var taskId := tasks[i];
      assert tasks[i..][1..] == tasks[i + 1..];
      var found := search.SearchFrom(taskId);
      if found {
        return Some(taskId);
      }
      i := i + 1;
    }
    return None;
  }

  // ---------------------------------------------------------------------------
  // Dangling references
  // ---------------------------------------------------------------------------

  datatype Dangling = UnknownDependentTask(taskId: string) | UnknownDependency(taskId: string, depId: string)

  /** A dependency key that is a task and lists only tasks. */
  predicate Resolved(tasks: set<string>, deps: Dependencies, k: string)
    requires k in deps.values
  {
    k in tasks && forall d :: d in deps.values[k] ==> d in tasks
  }

  /** The first id of `deps` in `keys` order that is not a task, or the first
      dependency it lists that is not a task. */
  function DanglingIn(tasks: set<string>, deps: Dependencies, keys: seq<string>): (r: Option<Dangling>)
    requires forall k :: k in keys ==> k in deps.values
    ensures r == None <==> forall k :: k in keys ==> Resolved(tasks, deps, k)
    ensures r.Some? && r.value.UnknownDependentTask? ==> r.value.taskId in keys && r.value.taskId !in tasks
    ensures r.Some? && r.value.UnknownDependency? ==>
      r.value.taskId in keys && r.value.taskId in tasks && r.value.depId in deps.values[r.value.taskId]
      && r.value.depId !in tasks
    ensures r.Some? ==>
      exists i :: 0 <= i < |keys| && keys[i] == r.value.taskId
        && (forall j :: 0 <= j < i ==> Resolved(tasks, deps, keys[j]))
        && (r.value.UnknownDependency? ==> FirstNotIn(deps.values[keys[i]], tasks) == Some(r.value.depId))
  {
    if keys == [] then None
    else
      var k := keys[0];
      assert k in keys;
      if k !in tasks then
        assert !Resolved(tasks, deps, k);
        Some(UnknownDependentTask(k))
      else
        var missing := FirstNotIn(deps.values[k], tasks);
        if missing.Some? then
          assert !Resolved(tasks, deps, k);
          Some(UnknownDependency(k, missing.value))
        else
          var rest := DanglingIn(tasks, deps, keys[1..]);
          assert forall x :: x in keys <==> x == k || x in keys[1..];
          if rest.Some? then
            FirstAfterResolved(tasks, deps, keys, rest.value);
            rest
          else rest
  }

  /** A reference reported first in `keys[1..]` is reported first in `keys`
      when `keys[0]` is resolved. */
  lemma FirstAfterResolved(tasks: set<string>, deps: Dependencies, keys: seq<string>, r: Dangling)
    requires keys != [] && forall k :: k in keys ==> k in deps.values
    requires Resolved(tasks, deps, keys[0])
    requires
      exists i :: 0 <= i < |keys[1..]| && keys[1..][i] == r.taskId
        && (forall j :: 0 <= j < i ==> Resolved(tasks, deps, keys[1..][j]))
        && (r.UnknownDependency? ==> FirstNotIn(deps.values[keys[1..][i]], tasks) == Some(r.depId))
    ensures
      exists i :: 0 <= i < |keys| && keys[i] == r.taskId
        && (forall j :: 0 <= j < i ==> Resolved(tasks, deps, keys[j]))
        && (r.UnknownDependency? ==> FirstNotIn(deps.values[keys[i]], tasks) == Some(r.depId))
  {
    var i :| 0 <= i < |keys[1..]| && keys[1..][i] == r.taskId
      && (forall j :: 0 <= j < i ==> Resolved(tasks, deps, keys[1..][j]))
      && (r.UnknownDependency? ==> FirstNotIn(deps.values[keys[1..][i]], tasks) == Some(r.depId));
    assert keys[i + 1] == keys[1..][i];
    assert forall j :: 1 <= j < i + 1 ==> keys[j] == keys[1..][j - 1];
  }

  /** The first element of `s` outside `tasks`. */
  function FirstNotIn(s: seq<string>, tasks: set<string>): (r: Option<string>)
    ensures r == None <==> forall d :: d in s ==> d in tasks
    ensures r.Some? ==> r.value in s && r.value !in tasks
    ensures r.Some? ==>
      exists i :: 0 <= i < |s| && s[i] == r.value && forall j :: 0 <= j < i ==> s[j] in tasks
  {
    if s == [] then None
    else if s[0] !in tasks then Some(s[0])
    else
      var rest := FirstNotIn(s[1..], tasks);
      assert forall x :: x in s <==> x == s[0] || x in s[1..];
      rest
  }

  /** `for task_id, deps in dependencies.items()`: the first dangling
      reference in the order of the dependency map. */
  function DanglingReference(tasks: set<string>, deps: Dependencies): (r: Option<Dangling>)
    ensures r == None <==>
      forall k :: k in deps.values ==> k in tasks && forall d :: d in deps.values[k] ==> d in tasks
    ensures r.Some? && r.value.UnknownDependentTask? ==> r.value.taskId in deps.values && r.value.taskId !in tasks
    ensures r.Some? && r.value.UnknownDependency? ==>
      r.value.taskId in tasks && r.value.taskId in deps.values && FirstNotIn(deps.values[r.value.taskId], tasks) == Some(r.value.depId)
    ensures r.Some? ==>
      exists i :: 0 <= i < |deps.order| && deps.order[i] == r.value.taskId
        && forall j :: 0 <= j < i ==> Resolved(tasks, deps, deps.order[j])
  {
    DanglingIn(tasks, deps, deps.order)
  }
}
