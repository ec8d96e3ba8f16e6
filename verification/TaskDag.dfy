/**
 Acyclicity check of proposed tasks (backend/agent_runtime/schema.py:220-247): a recursive
 depth-first visit over shared sets of tasks being visited and tasks already visited.
 */
module TaskDag {
  import opened Graph
  import opened Dictionary

  datatype Task = Task(id: Id, dependencies: seq<Id>)

  function TaskId(t: Task): Id { t.id }

  type Dependencies = map<Id, seq<Id>>

  // ---------- Meaning ----------

  ghost predicate Edge(deps: Dependencies, x: Id, y: Id) { x in deps && y in deps[x] }

  ghost predicate Path(deps: Dependencies, p: seq<Id>) {
    forall i, j :: 0 <= i && j == i + 1 && j < |p| ==> Edge(deps, p[i], p[j])
  }

  /** No task reaches itself through one or more dependencies. */
  ghost predicate Acyclic(deps: Dependencies) {
    forall p :: Path(deps, p) && |p| >= 2 ==> p[0] != p[|p| - 1]
  }

  ghost predicate Closed(deps: Dependencies) { forall x, y :: Edge(deps, x, y) ==> y in deps }

  /** Every listed task comes after all its dependencies, once. */
  ghost predicate DependenciesFirst(deps: Dependencies, order: seq<Id>) {
    && (forall i, j :: 0 <= i < j < |order| ==> order[i] != order[j])
    && (forall i, y :: 0 <= i < |order| && Edge(deps, order[i], y) ==> y in order[..i])
  }

  lemma {:induction false} PathGoesBack(deps: Dependencies, order: seq<Id>, p: seq<Id>, i: nat)
    requires DependenciesFirst(deps, order) && Path(deps, p) && p != [] && i < |order| && order[i] == p[0]
    ensures |p| >= 2 ==> p[|p| - 1] in order[..i]
    decreases |p|
  {
    if |p| >= 2 {
      assert Edge(deps, p[0], p[1]);
      var j :| 0 <= j < i && order[j] == p[1];
      if |p| > 2 {
        assert Path(deps, p[1..]) by {
          forall a, b | 0 <= a && b == a + 1 && b < |p[1..]| ensures Edge(deps, p[1..][a], p[1..][b]) {
            assert Edge(deps, p[a + 1], p[b + 1]);
          }
        }
        PathGoesBack(deps, order, p[1..], j);
        assert forall x :: x in order[..j] ==> x in order[..i];
      }
    }
  }

  /** A complete dependencies-first order rules out every cycle. */
  lemma OrderedIsAcyclic(deps: Dependencies, order: seq<Id>)
    requires DependenciesFirst(deps, order) && forall x :: x in deps ==> x in order
    ensures Acyclic(deps)
  {
    forall p | Path(deps, p) && |p| >= 2 ensures p[0] != p[|p| - 1] {
      assert Edge(deps, p[0], p[1]);
      var i :| 0 <= i < |order| && order[i] == p[0];
      PathGoesBack(deps, order, p, i);
    }
  }

  lemma CycleFound(deps: Dependencies, stack: seq<Id>, x: Id)
    requires Path(deps, stack + [x]) && x in stack
    ensures !Acyclic(deps)
  {
    var i :| 0 <= i < |stack| && stack[i] == x;
    var all := stack + [x];
    var p := all[i..];
    assert Path(deps, p) by {
      forall a, b | 0 <= a && b == a + 1 && b < |p| ensures Edge(deps, p[a], p[b]) {
        assert Edge(deps, all[i + a], all[i + b]);
      }
    }
    assert p[0] == x && p[|p| - 1] == x;
  }

  lemma PathExtends(deps: Dependencies, stack: seq<Id>, x: Id, y: Id)
    requires Path(deps, stack + [x]) && Edge(deps, x, y)
    ensures Path(deps, (stack + [x]) + [y])
  {
    var p, q := stack + [x], (stack + [x]) + [y];
    forall i, j | 0 <= i && j == i + 1 && j < |q| ensures Edge(deps, q[i], q[j]) {
      if j < |p| { assert Edge(deps, p[i], p[j]); }
    }
  }

  lemma Smaller(known: set<Id>, visiting: set<Id>, x: Id)
    requires x in known && x !in visiting
    ensures |known - (visiting + {x})| < |known - visiting|
  {
    assert known - visiting == (known - (visiting + {x})) + {x};
  }

  lemma FinishOne(deps: Dependencies, order: seq<Id>, x: Id)
    requires DependenciesFirst(deps, order) && x !in order && forall y :: Edge(deps, x, y) ==> y in order
    ensures DependenciesFirst(deps, order + [x])
  {
    var next := order + [x];
    forall i, y | 0 <= i < |next| && Edge(deps, next[i], y) ensures y in next[..i] {
      if i < |order| { assert next[..i] == order[..i]; } else { assert next[..i] == order; }
    }
  }

  // ---------- The visit ----------

  class Visitor {
    const deps: Dependencies
    var visiting: set<Id>
    var visited: set<Id>
    /** Tasks in the order in which they were finished. */
    var order: seq<Id>

    constructor (deps: Dependencies)
      ensures this.deps == deps && visiting == {} && order == [] && Consistent()
    {
      this.deps := deps;
      visiting, visited, order := {}, {}, [];
    }

    ghost predicate Consistent()
      reads this
    {
      && DependenciesFirst(deps, order) && visiting !! visited
      && (forall x :: x in visited <==> x in order)
    }

    /** `stack` is the chain of calls under way; each of its tasks depends on the next. */
    method Visit(x: Id, ghost stack: seq<Id>) returns (ok: bool)
      requires Consistent() && Closed(deps) && x in deps
      requires Path(deps, stack + [x]) && forall y :: y in visiting <==> y in stack
      modifies this
      ensures ok ==> Consistent() && visiting == old(visiting) && old(order) <= order && x in visited
      ensures !ok ==> !Acyclic(deps)
      decreases |deps.Keys - visiting|, 1
    {
      if x in visiting {
        CycleFound(deps, stack, x);
        return false;
      }
      if x in visited {
        return true;
      }
      Smaller(deps.Keys, visiting, x);
      visiting := visiting + {x};
      ok := VisitDependencies(x, stack);
      if ok {
        FinishOne(deps, order, x);
        visiting := visiting - {x};
        visited := visited + {x};
        order := order + [x];
      }
    }

    method VisitDependencies(x: Id, ghost stack: seq<Id>) returns (ok: bool)
      requires Consistent() && Closed(deps) && x in deps
      requires Path(deps, stack + [x]) && forall y :: y in visiting <==> y in stack + [x]
      modifies this
      ensures ok ==> Consistent() && visiting == old(visiting) && old(order) <= order
      ensures ok ==> forall y :: Edge(deps, x, y) ==> y in visited
      ensures !ok ==> !Acyclic(deps)
      decreases |deps.Keys - visiting|, 2
    {
      var i := 0;
      while i < |deps[x]|
        invariant 0 <= i <= |deps[x]| && Consistent() && visiting == old(visiting) && old(order) <= order
        invariant forall j :: 0 <= j < i ==> deps[x][j] in visited
      {
        var y := deps[x][i];
        assert Edge(deps, x, y);
        PathExtends(deps, stack, x, y);
        ghost var sofar := order;
        ok := Visit(y, stack + [x]);
        if !ok {
          return false;
        }
        assert forall z :: z in sofar ==> z in order;
        i := i + 1;
      }
      return true;
    }
  }

  // ---------- The check ----------

  ghost predicate HasTask(tasks: seq<Task>, id: Id) { exists t :: t in tasks && t.id == id }

  ghost predicate DependenciesKnown(tasks: seq<Task>) {
    forall t, y :: t in tasks && y in t.dependencies ==> HasTask(tasks, y)
  }

  ghost predicate NoneOnItself(tasks: seq<Task>) { forall t :: t in tasks ==> t.id !in t.dependencies }

  ghost predicate UniqueTasks(tasks: seq<Task>) { forall s, t :: s in tasks && t in tasks && s.id == t.id ==> s == t }

  /** The dictionary the visit runs on. */
  ghost predicate Describes(deps: Dependencies, tasks: seq<Task>) {
    forall x :: FindBy(tasks, TaskId, x) == if x in deps then Some(Task(x, deps[x])) else None
  }

  lemma DescribedClosed(deps: Dependencies, tasks: seq<Task>)
    requires Describes(deps, tasks) && DependenciesKnown(tasks)
    ensures Closed(deps) && forall x :: x in deps <==> HasTask(tasks, x)
  {
    forall x ensures x in deps <==> HasTask(tasks, x) {
      assert FindBy(tasks, TaskId, x) == if x in deps then Some(Task(x, deps[x])) else None;
    }
    forall x, y | Edge(deps, x, y) ensures y in deps {
      assert FindBy(tasks, TaskId, x) == Some(Task(x, deps[x]));
    }
  }

  method CheckReferences(tasks: seq<Task>) returns (ok: bool)
    ensures ok <==> DependenciesKnown(tasks) && NoneOnItself(tasks)
  {
    var ids := set t | t in tasks :: t.id;
    assert forall y :: y in ids <==> HasTask(tasks, y);
    var i := 0;
    while i < |tasks|
      invariant 0 <= i <= |tasks|
      invariant forall j, y :: 0 <= j < i && y in tasks[j].dependencies ==> y in ids
      invariant forall j :: 0 <= j < i ==> tasks[j].id !in tasks[j].dependencies
    {
      var t := tasks[i];
      assert t in tasks;
      var unknown := set y | y in t.dependencies && y !in ids;
      if unknown != {} {
        var y :| y in unknown;
        return false;
      }
      assert forall y :: y in t.dependencies ==> y !in unknown;
      if t.id in t.dependencies {
        return false;
      }
      i := i + 1;
    }
    return true;
  }

  method IndexTasks(tasks: seq<Task>) returns (deps: Dependencies)
    ensures Describes(deps, tasks)
  {
    var m := IndexItems(tasks, TaskId);
    deps := map x | x in m :: m[x].dependencies;
    forall x ensures FindBy(tasks, TaskId, x) == if x in deps then Some(Task(x, deps[x])) else None {
      assert FindBy(tasks, TaskId, x) == if x in m then Some(m[x]) else None;
    }
  }

  /** Accepts exactly when every dependency is known, none is the task itself, and no chain of dependencies returns. */
  method ValidateTaskDag(tasks: seq<Task>) returns (ok: bool, deps: Dependencies, order: seq<Id>)
    ensures Describes(deps, tasks)
    ensures ok <==> DependenciesKnown(tasks) && NoneOnItself(tasks) && Acyclic(deps)
    ensures ok ==> DependenciesFirst(deps, order) && forall x :: HasTask(tasks, x) ==> x in order
  {
    deps := IndexTasks(tasks);
    order := [];
    ok := CheckReferences(tasks);
    if !ok {
      return;
    }
    DescribedClosed(deps, tasks);
    var v := new Visitor(deps);
    var rest := deps.Keys;
    while rest != {}
      invariant v.deps == deps && v.Consistent() && v.visiting == {} && rest <= deps.Keys
      invariant forall x :: x in deps && x !in rest ==> x in v.visited
      decreases rest
    {
      var x :| x in rest;
      assert Path(deps, [] + [x]);
      ghost var sofar := v.order;
      ok := v.Visit(x, []);
      if !ok {
        return;
      }
      assert forall z :: z in sofar ==> z in v.order;
      rest := rest - {x};
    }
    order := v.order;
    OrderedIsAcyclic(deps, order);
  }

  /** With unique task IDs, which the caller checks first, a task on itself is already a cycle. */
  lemma UniqueMeansAcyclic(tasks: seq<Task>, deps: Dependencies)
    requires UniqueTasks(tasks) && Describes(deps, tasks) && Acyclic(deps)
    ensures NoneOnItself(tasks)
  {
    forall t | t in tasks ensures t.id !in t.dependencies {
      assert FindBy(tasks, TaskId, t.id) == if t.id in deps then Some(Task(t.id, deps[t.id])) else None;
      assert deps[t.id] == t.dependencies;
      if t.id in t.dependencies {
        var p := [t.id, t.id];
        assert Edge(deps, t.id, t.id);
        assert Path(deps, p);
      }
    }
  }
}
