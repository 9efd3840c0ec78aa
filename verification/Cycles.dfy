/**
  The depth-first cycle check run on every submission, and the graph facts the
  scheduler relies on: a graph without cycles has a topological order, and any
  set of its stages has a member none of whose inputs is in the set.
 */
module Cycles {
  import opened Wrappers
  import opened Sequences
  import opened Stages

  predicate Before(order: seq<StageId>, x: StageId, k: int) {
    exists m :: 0 <= m < k && m < |order| && order[m] == x
  }

  /** Every stage comes after all of its inputs. */
  ghost predicate IsTopological(d: seq<StageDesign>, order: seq<StageId>) {
    && Distinct(order)
    && forall k, x :: 0 <= k < |order| && Edge(d, order[k], x) ==> Before(order, x, k)
  }

  ghost predicate CoversStages(d: seq<StageDesign>, order: seq<StageId>) {
    forall i :: 0 <= i < |d| ==> d[i].id in order
  }

  lemma EdgeStartsAtStage(d: seq<StageDesign>, a: StageId, b: StageId)
    requires Edge(d, a, b)
    ensures exists i :: 0 <= i < |d| && d[i].id == a
  {
  }

  /** Along a walk, positions in a topological order only go down. */
  lemma {:induction false} WalkDescends(d: seq<StageDesign>, order: seq<StageId>, w: seq<StageId>, k: nat)
    requires IsTopological(d, order) && IsWalk(d, w)
    requires |w| >= 2 && k < |order| && w[0] == order[k]
    ensures Before(order, w[|w| - 1], k)
    decreases |w|
  {
    assert Edge(d, w[0], w[1]);
    assert Before(order, w[1], k);
    if |w| > 2 {
      var m :| 0 <= m < k && order[m] == w[1];
      WalkDescends(d, order, w[1..], m);
    }
  }

  lemma TopologicalExcludesCycles(d: seq<StageDesign>, order: seq<StageId>)
    requires IsTopological(d, order) && CoversStages(d, order)
    ensures Acyclic(d)
  {
    forall w ensures !IsCycle(d, w) {
      if IsCycle(d, w) {
        assert Edge(d, w[0], w[1]);
        EdgeStartsAtStage(d, w[0], w[1]);
        var k :| 0 <= k < |order| && order[k] == w[0];
        WalkDescends(d, order, w, k);
        assert false;
      }
    }
  }

  lemma RepeatClosesCycle(d: seq<StageDesign>, path: seq<StageId>, i: nat, x: StageId)
    requires IsWalk(d, path) && i < |path| && path[i] == x
    requires Edge(d, path[|path| - 1], x)
    ensures IsCycle(d, path[i..] + [x])
  {
  }

  /** Follow inputs inside `pool` until none is left; a repeat would close a cycle. */
  lemma {:induction false} ChaseInputs(d: seq<StageDesign>, pool: set<StageId>, path: seq<StageId>)
    returns (m: StageId)
    requires Acyclic(d)
    requires path != [] && Distinct(path) && IsWalk(d, path)
    requires forall x :: x in path ==> x in pool
    ensures m in pool
    ensures forall x :: Edge(d, m, x) ==> x !in pool
    decreases |pool| - |path|
  {
    m := path[|path| - 1];
    if x :| Edge(d, m, x) && x in pool {
      if x in path {
        var i :| 0 <= i < |path| && path[i] == x;
        RepeatClosesCycle(d, path, i, x);
        assert false;
      } else {
        var longer := path + [x];
        DistinctWithin(longer, pool);
        m := ChaseInputs(d, pool, longer);
      }
    }
  }

  /** Any non-empty set of stages of an acyclic graph has a member that reads nothing in the set. */
  lemma MinimalStage(d: seq<StageDesign>, pool: set<StageId>) returns (m: StageId)
    requires Acyclic(d) && pool != {}
    ensures m in pool
    ensures forall x :: Edge(d, m, x) ==> x !in pool
  {
    var start :| start in pool;
    m := ChaseInputs(d, pool, [start]);
  }

  function Nodes(d: seq<StageDesign>): set<StageId> {
    (set i | 0 <= i < |d| :: d[i].id) + (set i, x | 0 <= i < |d| && x in d[i].inputs :: x)
  }

  lemma EdgeStaysInNodes(d: seq<StageDesign>, a: StageId, b: StageId)
    requires Edge(d, a, b)
    ensures a in Nodes(d) && b in Nodes(d)
  {
  }

  lemma BeforeInPrefix(order: seq<StageId>, m: StageId, x: StageId, k: int)
    requires Before(order, x, k)
    ensures Before(order + [m], x, k)
  {
    var i :| 0 <= i < k && i < |order| && order[i] == x;
    assert (order + [m])[i] == x;
  }

  lemma MemberIsBefore(order: seq<StageId>, x: StageId)
    requires x in order
    ensures Before(order, x, |order|)
  {
  }

  lemma AppendKeepsTopological(d: seq<StageDesign>, order: seq<StageId>, m: StageId)
    requires IsTopological(d, order) && m !in order
    requires forall x :: Edge(d, m, x) ==> x in order
    ensures IsTopological(d, order + [m])
  {
    var longer := order + [m];
    forall k, x | 0 <= k < |longer| && Edge(d, longer[k], x) ensures Before(longer, x, k) {
      if k < |order| {
        assert Edge(d, order[k], x);
        BeforeInPrefix(order, m, x, k);
      } else {
        assert Edge(d, m, x);
        MemberIsBefore(order, x);
        BeforeInPrefix(order, m, x, k);
      }
    }
  }

  lemma {:induction false} ExtendOrder(d: seq<StageDesign>, order: seq<StageId>) returns (full: seq<StageId>)
    requires Acyclic(d) && IsTopological(d, order)
    requires forall x :: x in order ==> x in Nodes(d)
    ensures IsTopological(d, full) && CoversStages(d, full)
    decreases Nodes(d) - SeqSet(order)
  {
    var pool := Nodes(d) - SeqSet(order);
    if pool == {} {
      full := order;
      forall i | 0 <= i < |d| ensures d[i].id in full {
        assert d[i].id in Nodes(d) && d[i].id !in pool;
      }
    } else {
      var m := MinimalStage(d, pool);
      var longer := order + [m];
      AppendKeepsTopological(d, order, m) by {
        forall x | Edge(d, m, x) ensures x in order {
          EdgeStaysInNodes(d, m, x);
        }
      }
      assert Nodes(d) - SeqSet(longer) == pool - {m};
      full := ExtendOrder(d, longer);
    }
  }

  /** Having no cycle and having a topological order are the same thing. */
  lemma AcyclicIffOrdered(d: seq<StageDesign>)
    ensures Acyclic(d) <==> exists order :: IsTopological(d, order) && CoversStages(d, order)
  {
    if Acyclic(d) {
      var order := ExtendOrder(d, []);
    }
    if order :| IsTopological(d, order) && CoversStages(d, order) {
      TopologicalExcludesCycles(d, order);
    }
  }

  /** The search state that the recursive walk changes in place. */
  class CycleSearch {
    const design: seq<StageDesign>
    var visited: set<StageId>
    var stack: seq<StageId>
    // `visited` in order of insertion: the topological order the search finds.
    ghost var finished: seq<StageId>

    ghost predicate Valid()
      reads this
    {
      && visited == SeqSet(finished)
      && IsTopological(design, finished)
      && Distinct(stack) && IsWalk(design, stack)
      && SeqSet(stack) !! visited
      && SeqSet(stack) <= Nodes(design)
      && visited <= Nodes(design)
    }

    ghost function Unexplored(): set<StageId>
      reads this
    {
      Nodes(design) - visited - SeqSet(stack)
    }

    constructor (d: seq<StageDesign>)
      ensures Valid() && design == d && stack == [] && visited == {}
    {
      design, visited, stack, finished := d, {}, [], [];
    }

    method Dfs(node: StageId) returns (found: Option<seq<StageId>>)
      requires Valid() && node in Nodes(design)
      requires stack != [] ==> Edge(design, stack[|stack| - 1], node)
      modifies this
      ensures found.Some? ==> IsCycle(design, found.value)
      ensures found.None? ==>
                Valid() && stack == old(stack) && old(visited) <= visited && node in visited
      decreases Unexplored()
    {
      var onPath, at := Position(node);
      if onPath {
        RepeatClosesCycle(design, stack, at, node);
        return Some(stack[at..] + [node]);
      }
      if node in visited {
        return None;
      }
      Push(node);
      var inputs := InputsOf(design, node);
      var k := 0;
      while k < |inputs|
        invariant 0 <= k <= |inputs|
        invariant Valid() && stack == old(stack) + [node] && old(visited) <= visited
        invariant Unexplored() < old(Unexplored())
        invariant forall j :: 0 <= j < k ==> inputs[j] in visited
      {
        assert Edge(design, node, inputs[k]);
        EdgeStaysInNodes(design, node, inputs[k]);
        var loop_ := Dfs(inputs[k]);
        if loop_.Some? {
          return loop_;
        }
        k := k + 1;
      }
      Finish(node);
      return None;
    }

    method Position(node: StageId) returns (found: bool, at: nat)
      ensures found <==> node in stack
      ensures found ==> at < |stack| && stack[at] == node
    {
      at := 0;
      while at < |stack|
        invariant at <= |stack| && node !in stack[..at]
      {
        if stack[at] == node {
          return true, at;
        }
        at := at + 1;
      }
      found := false;
    }

    method Push(node: StageId)
      requires Valid() && node in Nodes(design) && node !in stack && node !in visited
      requires stack != [] ==> Edge(design, stack[|stack| - 1], node)
      modifies this`stack
      ensures Valid() && stack == old(stack) + [node]
      ensures Unexplored() < old(Unexplored())
    {
      stack := stack + [node];
      assert SeqSet(stack) == SeqSet(old(stack)) + {node};
      assert node in Nodes(design) - visited - SeqSet(old(stack));
    }

    /** Leave `node`: every stage it reads is already finished. */
    method Finish(node: StageId)
      requires Valid() && stack != [] && stack[|stack| - 1] == node
      requires forall x :: Edge(design, node, x) ==> x in visited
      modifies this
      ensures Valid() && stack == old(stack)[..|old(stack)| - 1]
      ensures finished == old(finished) + [node] && visited == old(visited) + {node}
    {
      assert node in SeqSet(stack);
      AppendKeepsTopological(design, finished, node);
      assert SeqSet(stack) == SeqSet(stack[..|stack| - 1]) + {node};
      stack := stack[..|stack| - 1];
      visited := visited + {node};
      finished := finished + [node];
    }

    method Cycle() returns (found: Option<seq<StageId>>)
      requires Valid() && stack == [] && visited == {}
      modifies this
      ensures found.Some? ==> IsCycle(design, found.value)
      ensures found.None? ==> IsTopological(design, finished) && CoversStages(design, finished)
      ensures found.None? <==> Acyclic(design)
    {
      var i := 0;
      while i < |design|
        invariant 0 <= i <= |design| && Valid() && stack == []
        invariant forall j :: 0 <= j < i ==> design[j].id in visited
      {
        var loop_ := Dfs(design[i].id);
        if loop_.Some? {
          return loop_;
        }
        i := i + 1;
      }
      TopologicalExcludesCycles(design, finished);
      return None;
    }
  }
}
