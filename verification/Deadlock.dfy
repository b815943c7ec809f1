/** `posix_locks_deadlock` (fs/locks.c:691-714) and the wait-for graph it searches.

    A task that sleeps on a POSIX lock waits for the lock's owner.  Because a task
    sleeps on one lock at a time, the graph is a partial function on tasks. */
module Deadlock {
  import opened LockTypes

  type Graph = map<Pid, Pid>

  /** Some lock of the table is owned by `y` and has `x` on its block list. */
  ghost predicate WaitsFor(table: seq<FileLock>, x: Pid, y: Pid) {
    exists i :: 0 <= i < |table| && table[i].owner == Task(y) && x in table[i].blocked
  }

  /** `w` is the wait-for graph of the table. */
  ghost predicate IsGraph(w: Graph, table: seq<FileLock>) {
    forall x, y :: x in w && w[x] == y <==> WaitsFor(table, x, y)
  }

  /** Following the graph from `x` comes to a running task within `n` steps. */
  predicate EndsIn(w: Graph, x: Pid, n: nat)
    decreases n
  {
    x !in w || (n > 0 && EndsIn(w, w[x], n - 1))
  }

  ghost predicate Ends(w: Graph, x: Pid) {
    exists n: nat :: EndsIn(w, x, n)
  }

  ghost predicate Acyclic(w: Graph) {
    forall x :: Ends(w, x)
  }

  predicate ReachesIn(w: Graph, x: Pid, y: Pid, n: nat)
    decreases n
  {
    x == y || (n > 0 && x in w && ReachesIn(w, w[x], y, n - 1))
  }

  /** A chain of waits leads from `x` to `y`. */
  ghost predicate Reaches(w: Graph, x: Pid, y: Pid) {
    exists n: nat :: ReachesIn(w, x, y, n)
  }

  /** `x` waits, through one or more tasks, for itself. */
  ghost predicate OnCycle(w: Graph, x: Pid) {
    x in w && Reaches(w, w[x], x)
  }

  // ---------- facts about the graph ----------

  lemma ReachesStep(w: Graph, x: Pid, y: Pid)
    ensures Reaches(w, x, y) <==> x == y || (x in w && Reaches(w, w[x], y))
  {
    if x == y { assert ReachesIn(w, x, y, 0); }
    if Reaches(w, x, y) && x != y {
      var n: nat :| ReachesIn(w, x, y, n);
      assert ReachesIn(w, w[x], y, n - 1);
    }
    if x in w && Reaches(w, w[x], y) {
      var n: nat :| ReachesIn(w, w[x], y, n);
      assert ReachesIn(w, x, y, n + 1);
    }
  }

  lemma EndsStep(w: Graph, x: Pid)
    ensures Ends(w, x) <==> x !in w || Ends(w, w[x])
  {
    if x !in w { assert EndsIn(w, x, 0); }
    if x in w && Ends(w, x) {
      var n: nat :| EndsIn(w, x, n);
      assert EndsIn(w, w[x], n - 1);
    }
    if x in w && Ends(w, w[x]) {
      var n: nat :| EndsIn(w, w[x], n);
      assert EndsIn(w, x, n + 1);
    }
  }

  lemma {:induction false} EndsLater(w: Graph, a: Pid, b: Pid, n: nat, m: nat) returns (k: nat)
    requires ReachesIn(w, a, b, n) && EndsIn(w, a, m)
    ensures k <= m && EndsIn(w, b, k)
    decreases n
  {
    if a == b {
      k := m;
    } else {
      k := EndsLater(w, w[a], b, n - 1, m - 1);
    }
  }

  lemma {:induction false} EndsNoCycle(w: Graph, x: Pid, m: nat)
    requires EndsIn(w, x, m)
    ensures !OnCycle(w, x)
    decreases m
  {
    if OnCycle(w, x) {
      var n: nat :| ReachesIn(w, w[x], x, n);
      var k := EndsLater(w, w[x], x, n, m - 1);
      EndsNoCycle(w, x, k);
    }
  }

  /** Without a cycle the walk from `x` ends: it never returns to `seen`. */
  lemma {:induction false} NoCycleEnds(w: Graph, x: Pid, seen: set<Pid>)
    requires forall y :: !OnCycle(w, y)
    requires seen <= w.Keys && forall y :: y in seen ==> Reaches(w, w[y], x)
    ensures Ends(w, x)
    decreases w.Keys - seen
  {
    EndsStep(w, x);
    if x in w {
      assert x !in seen by { assert x in seen ==> OnCycle(w, x); }
      forall y | y in seen + {x}
        ensures Reaches(w, w[y], w[x])
      {
        if y == x {
          ReachesStep(w, w[x], w[x]);
        } else {
          var n: nat :| ReachesIn(w, w[y], x, n);
          OneMore(w, w[y], x, n);
        }
      }
      NoCycleEnds(w, w[x], seen + {x});
    }
  }

  lemma {:induction false} OneMore(w: Graph, a: Pid, x: Pid, n: nat)
    requires ReachesIn(w, a, x, n) && x in w
    ensures Reaches(w, a, w[x])
    decreases n
  {
    ReachesStep(w, a, w[x]);
    if a == x {
      ReachesStep(w, w[x], w[x]);
    } else {
      OneMore(w, w[a], x, n - 1);
    }
  }

  /** Every walk ends exactly when no task waits for itself. */
  lemma AcyclicMeansNoCycle(w: Graph)
    ensures Acyclic(w) <==> forall x :: !OnCycle(w, x)
  {
    if Acyclic(w) {
      forall x ensures !OnCycle(w, x) {
        assert Ends(w, x);
        var m: nat :| EndsIn(w, x, m);
        EndsNoCycle(w, x, m);
      }
    }
    if forall x :: !OnCycle(w, x) {
      forall x ensures Ends(w, x) { NoCycleEnds(w, x, {}); }
    }
  }

  /** Removing waits keeps the graph acyclic. */
  lemma {:induction false} SubgraphEnds(w: Graph, v: Graph, x: Pid, n: nat)
    requires v.Keys <= w.Keys && (forall y :: y in v ==> v[y] == w[y]) && EndsIn(w, x, n)
    ensures EndsIn(v, x, n)
    decreases n
  {
    if x in v { SubgraphEnds(w, v, v[x], n - 1); }
  }

  lemma SubgraphAcyclic(w: Graph, v: Graph)
    requires Acyclic(w) && v.Keys <= w.Keys && forall y :: y in v ==> v[y] == w[y]
    ensures Acyclic(v)
  {
    forall x ensures Ends(v, x) {
      assert Ends(w, x);
      var n: nat :| EndsIn(w, x, n);
      SubgraphEnds(w, v, x, n);
    }
  }

  /** A walk that does not reach `t` is not changed by a new wait of `t`. */
  lemma {:induction false} AddEnds(w: Graph, t: Pid, o: Pid, x: Pid, n: nat)
    requires t !in w && EndsIn(w, x, n) && !Reaches(w, x, t)
    ensures EndsIn(w[t := o], x, n)
    decreases n
  {
    ReachesStep(w, x, t);
    if x in w { AddEnds(w, t, o, w[x], n - 1); }
  }

  lemma {:induction false} AddEndsAll(w: Graph, t: Pid, o: Pid, x: Pid, n: nat)
    requires t !in w && Ends(w[t := o], o) && EndsIn(w, x, n)
    ensures Ends(w[t := o], x)
    decreases n
  {
    EndsStep(w[t := o], x);
    if x != t && x in w { AddEndsAll(w, t, o, w[x], n - 1); }
  }

  /** A new wait keeps the graph acyclic exactly when the one waited for does not wait,
      through any chain, for the new waiter. */
  lemma AddWait(w: Graph, t: Pid, o: Pid)
    requires Acyclic(w) && t !in w
    ensures Acyclic(w[t := o]) <==> !Reaches(w, o, t)
  {
    if !Reaches(w, o, t) {
      assert Ends(w, o);
      var n: nat :| EndsIn(w, o, n);
      AddEnds(w, t, o, o, n);
      var v := w[t := o];
      forall x ensures Ends(v, x) {
        assert Ends(w, x);
        var m: nat :| EndsIn(w, x, m);
        AddEndsAll(w, t, o, x, m);
      }
    } else {
      var n: nat :| ReachesIn(w, o, t, n);
      AddReaches(w, t, o, o, n);
      AcyclicMeansNoCycle(w[t := o]);
      assert OnCycle(w[t := o], t);
    }
  }

  lemma {:induction false} AddReaches(w: Graph, t: Pid, o: Pid, x: Pid, n: nat)
    requires t !in w && ReachesIn(w, x, t, n)
    ensures Reaches(w[t := o], x, t)
    decreases n
  {
    ReachesStep(w[t := o], x, t);
    if x != t { AddReaches(w, t, o, w[x], n - 1); }
  }

  // ---------- the search ----------

  /** Would `my` sleeping on a lock of `blocked` close a cycle of waits? */
  method PosixLocksDeadlock(table: seq<FileLock>, my: Pid, blocked: Pid, ghost w: Graph)
    returns (deadlock: bool)
    requires IsGraph(w, table) && Acyclic(w)
    ensures deadlock <==> Reaches(w, blocked, my)
  {
    var task := blocked;
    assert Ends(w, task);
    ghost var n: nat :| EndsIn(w, task, n);
    var searching := true;
    while searching
      invariant searching ==> EndsIn(w, task, n)
      invariant Reaches(w, blocked, my) <==> Reaches(w, task, my)
      invariant !searching ==> task != my && task !in w
      decreases searching, n
    {
      ReachesStep(w, task, my);
      if my == task {
        return true;
      }
      searching := false;
      var i := 0;
      while i < |table| && !searching
        invariant 0 <= i <= |table|
        invariant forall k :: 0 <= k < i && table[k].owner.Task? ==> task !in table[k].blocked
      {
        var fl := table[i];
        i := i + 1;
        if fl.owner == NoTask || fl.blocked == [] {
          continue;
        }
        var j := 0;
        while j < |fl.blocked| && fl.blocked[j] != task
          invariant 0 <= j <= |fl.blocked| && task !in fl.blocked[..j]
        {
          j := j + 1;
        }
        if j < |fl.blocked| {
          assert WaitsFor(table, task, fl.owner.pid);
          ReachesStep(w, w[task], my);
          if fl.owner == Task(my) {
            return true;
          }
          task, n, searching := fl.owner.pid, n - 1, true;
          break;
        }
      }
      if !searching {
        assert !WaitsFor(table, task, if task in w then w[task] else 0);
      }
    }
    ReachesStep(w, task, my);
    deadlock := false;
  }
}
