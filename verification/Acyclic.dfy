/** The depth-first search that rejects cyclic term relations. */
module Acyclic {
  import opened Basics

  type Name = string

  type Edges = map<Name, seq<Name>>

  datatype Verdict = Fine | Cycle(path: seq<Name>) | UnknownTarget(name: Name)

  // ---------- what the verdicts mean ----------

  predicate Edge(edges: Edges, a: Name, b: Name) {
    a in edges && b in edges[a]
  }

  predicate IsWalk(edges: Edges, path: seq<Name>) {
    forall i :: 0 <= i < |path| - 1 ==> Edge(edges, path[i], path[i + 1])
  }

  predicate IsCycle(edges: Edges, path: seq<Name>) {
    |path| >= 2 && path[0] == path[|path| - 1] && IsWalk(edges, path)
  }

  ghost predicate NoCycle(edges: Edges) {
    forall path: seq<Name> :: !IsCycle(edges, path)
  }

  ghost predicate AllKnown(edges: Edges) {
    forall a, b :: Edge(edges, a, b) ==> b in edges
  }

  /** Every edge leads to something finished earlier. */
  ghost predicate Topological(edges: Edges, finished: seq<Name>) {
    forall i, b :: 0 <= i < |finished| && Edge(edges, finished[i], b) ==> b in finished[..i]
  }

  /** From a finished name an edge leads to a lower position. */
  lemma WalksDescend(edges: Edges, finished: seq<Name>, path: seq<Name>, at: nat) returns (end: nat)
    requires Topological(edges, finished) && IsWalk(edges, path) && |path| >= 1
    requires at < |finished| && finished[at] == path[0]
    ensures end <= at && end < |finished| && finished[end] == path[|path| - 1]
    ensures |path| >= 2 ==> end < at
    decreases |path|
  {
    if |path| == 1 {
      end := at;
    } else {
      assert Edge(edges, path[0], path[1]);
      var next :| 0 <= next < at && finished[..at][next] == path[1];
      assert IsWalk(edges, path[1..]) by {
        forall i | 0 <= i < |path[1..]| - 1 ensures Edge(edges, path[1..][i], path[1..][i + 1]) {
          assert Edge(edges, path[i + 1], path[i + 2]);
        }
      }
      end := WalksDescend(edges, finished, path[1..], next);
    }
  }

  /** A cycle could be walked down for ever, so a finishing order excludes one. */
  lemma {:induction false} DescentNeverEnds(edges: Edges, finished: seq<Name>, path: seq<Name>, at: nat)
    requires Topological(edges, finished) && IsCycle(edges, path)
    requires at < |finished| && finished[at] == path[0]
    ensures false
    decreases at
  {
    var end := WalksDescend(edges, finished, path, at);
    DescentNeverEnds(edges, finished, path, end);
  }

  lemma FinishingOrderExcludesCycles(edges: Edges, finished: seq<Name>)
    requires Topological(edges, finished)
    requires forall a :: a in edges ==> a in finished
    ensures NoCycle(edges)
  {
    forall path: seq<Name> ensures !IsCycle(edges, path) {
      if IsCycle(edges, path) {
        assert Edge(edges, path[0], path[1]);
        var at :| 0 <= at < |finished| && finished[at] == path[0];
        DescentNeverEnds(edges, finished, path, at);
      }
    }
  }

  // ---------- the search ----------

  function Unvisited(edges: Edges, active: seq<Name>): set<Name> {
    edges.Keys - set a | a in active
  }

  lemma UnvisitedShrinks(edges: Edges, active: seq<Name>, name: Name)
    requires name in edges && name !in active
    ensures |Unvisited(edges, active + [name])| < |Unvisited(edges, active)|
  {
    assert Unvisited(edges, active + [name]) == Unvisited(edges, active) - {name};
  }

  lemma WalkExtends(edges: Edges, path: seq<Name>, name: Name)
    requires IsWalk(edges, path) && (path != [] ==> Edge(edges, path[|path| - 1], name))
    ensures IsWalk(edges, path + [name])
  {
    var longer := path + [name];
    forall i | 0 <= i < |longer| - 1 ensures Edge(edges, longer[i], longer[i + 1]) {
      if i < |path| - 1 { assert Edge(edges, path[i], path[i + 1]); }
    }
  }

  lemma WalkSuffix(edges: Edges, path: seq<Name>, from: nat)
    requires IsWalk(edges, path) && from <= |path|
    ensures IsWalk(edges, path[from..])
  {
    forall i | 0 <= i < |path[from..]| - 1 ensures Edge(edges, path[from..][i], path[from..][i + 1]) {
      assert Edge(edges, path[from + i], path[from + i + 1]);
    }
  }

  lemma Finish(edges: Edges, finished: seq<Name>, name: Name)
    requires Topological(edges, finished) && name in edges
    requires forall b :: b in edges[name] ==> b in finished
    ensures Topological(edges, finished + [name])
  {
    var longer := finished + [name];
    forall i, b | 0 <= i < |longer| && Edge(edges, longer[i], b) ensures b in longer[..i] {
      if i < |finished| {
        assert longer[..i] == finished[..i] && longer[i] == finished[i];
      } else {
        assert longer[..i] == finished;
      }
    }
  }

  /** The path walks along known, distinct names; what is complete was finished in order. */
  ghost predicate Sound(edges: Edges, complete: set<Name>, active: seq<Name>, finished: seq<Name>) {
    && IsWalk(edges, active) && NoRepeat(active)
    && (forall a :: a in active || a in complete ==> a in edges)
    && (forall a :: a in complete <==> a in finished)
    && Topological(edges, finished)
  }

  lemma Push(edges: Edges, complete: set<Name>, active: seq<Name>, finished: seq<Name>, name: Name)
    requires Sound(edges, complete, active, finished) && name in edges && name !in active
    requires active != [] ==> Edge(edges, active[|active| - 1], name)
    ensures Sound(edges, complete, active + [name], finished)
  {
    WalkExtends(edges, active, name);
  }

  lemma Pop(edges: Edges, complete: set<Name>, active: seq<Name>, finished: seq<Name>, name: Name)
    requires Sound(edges, complete, active + [name], finished)
    requires forall j :: 0 <= j < |edges[name]| ==> edges[name][j] in complete
    ensures Sound(edges, complete + {name}, active, finished + [name])
  {
    var longer := active + [name];
    assert longer[|active|] == name;
    assert IsWalk(edges, active) by {
      forall i | 0 <= i < |active| - 1 ensures Edge(edges, active[i], active[i + 1]) {
        assert Edge(edges, longer[i], longer[i + 1]);
      }
    }
    assert NoRepeat(active) by {
      forall i, j | 0 <= i < j < |active| ensures active[i] != active[j] {
        assert longer[i] != longer[j];
      }
    }
    Finish(edges, finished, name);
  }

  lemma BackEdgeClosesACycle(edges: Edges, active: seq<Name>, start: nat)
    requires IsWalk(edges, active) && start < |active| && Edge(edges, active[|active| - 1], active[start])
    ensures IsCycle(edges, active[start..] + [active[start]])
  {
    WalkSuffix(edges, active, start);
    WalkExtends(edges, active[start..], active[start]);
  }

  class Search {
    const edges: Edges
    var complete: set<Name>
    var active: seq<Name>
    ghost var finished: seq<Name>

    ghost predicate Valid()
      reads this
    {
      Sound(edges, complete, active, finished)
    }

    constructor (edges: Edges)
      ensures this.edges == edges && Valid() && active == [] && complete == {}
    {
      this.edges, complete, active, finished := edges, {}, [], [];
    }

    /** The path from the name's place on, closed by the name itself. */
    method CycleAt(name: Name) returns (path: seq<Name>)
      requires IsWalk(edges, active) && name in active && Edge(edges, active[|active| - 1], name)
      ensures IsCycle(edges, path)
    {
      var start := 0;
      while active[start] != name
        invariant start < |active| && name in active[start..]
        decreases |active| - start
      {
        start := start + 1;
      }
      BackEdgeClosesACycle(edges, active, start);
      path := active[start..] + [name];
    }

    /** What a visit promises of its verdict. */
    ghost predicate Honest(name: Name, verdict: Verdict) {
      match verdict
      case Fine => true
      case Cycle(path) => IsCycle(edges, path)
      case UnknownTarget(unknown) => unknown !in edges && (unknown == name || exists a :: Edge(edges, a, unknown))
    }

    /** The recursion ends because every call puts one more known name on the path. */
    method Visit(name: Name) returns (verdict: Verdict)
      requires Valid() && (active != [] ==> Edge(edges, active[|active| - 1], name))
      modifies this
      ensures verdict.Fine? ==> Valid() && active == old(active) && old(complete) <= complete && name in complete
      ensures Honest(name, verdict)
      decreases |Unvisited(edges, active)|, 0
    {
      if name in complete { return Fine; }
      if name in active {
        var path := CycleAt(name);
        return Cycle(path);
      }
      if name !in edges { return UnknownTarget(name); }
      UnvisitedShrinks(edges, active, name);
      Push(edges, complete, active, finished, name);
      ghost var path := active;
      active := active + [name];
      verdict := VisitTargets(name);
      if verdict.Fine? {
        Pop(edges, complete, path, finished, name);
        active := active[..|active| - 1];
        assert active == path;
        complete := complete + {name};
        finished := finished + [name];
      }
    }

    method VisitTargets(name: Name) returns (verdict: Verdict)
      requires Valid() && active != [] && active[|active| - 1] == name
      modifies this
      ensures verdict.Fine? ==> Valid() && active == old(active) && old(complete) <= complete
      ensures verdict.Fine? ==> forall j :: 0 <= j < |edges[name]| ==> edges[name][j] in complete
      ensures Honest(name, verdict)
      decreases |Unvisited(edges, active)|, 1
    {
      for i := 0 to |edges[name]|
        invariant Valid() && active == old(active) && old(complete) <= complete
        invariant forall j :: 0 <= j < i ==> edges[name][j] in complete
      {
        assert Edge(edges, name, edges[name][i]);
        verdict := Visit(edges[name][i]);
        if !verdict.Fine? { return; }
      }
      verdict := Fine;
    }
  }

  /** Accepts exactly the relations without a cycle whose targets are all known; a reported
      path is a real cycle. `order` lists the names in the mapping's own order. */
  method ValidateAcyclic(edges: Edges, order: seq<Name>) returns (verdict: Verdict)
    requires forall a :: a in order <==> a in edges
    ensures verdict.Fine? <==> NoCycle(edges) && AllKnown(edges)
    ensures verdict.Cycle? ==> IsCycle(edges, verdict.path)
    ensures verdict.UnknownTarget? ==> verdict.name !in edges && exists a :: Edge(edges, a, verdict.name)
  {
    var search := new Search(edges);
    for i := 0 to |order|
      invariant search.edges == edges && search.Valid() && search.active == []
      invariant forall j :: 0 <= j < i ==> order[j] in search.complete
      invariant fresh(search)
    {
      verdict := search.Visit(order[i]);
      if !verdict.Fine? { return; }
    }
    FinishingOrderExcludesCycles(edges, search.finished);
    forall a, b | Edge(edges, a, b) ensures b in edges {
      var i :| 0 <= i < |search.finished| && search.finished[i] == a;
      assert b in search.finished[..i];
    }
    verdict := Fine;
  }
}
