/**
 * The call-tree printer of the call-tree tool (call_tree_tool/graphdraw.py):
 * a depth-first walk from an origin function over the callee lists the
 * database answers, with an explicit stack, writing one line per visit
 * indented by one tab per level.
 *
 * The database's `get_edges` is the function `getEdges`; the lines written
 * to the output file are returned as a sequence (each also goes to
 * standard output, which is not modelled).
 */
module GraphDraw {

  /** A function as the database names it: (shortpath, name). */
  datatype Node = Node(path: string, name: string)

  /** A stack entry and a written line: a function and its depth below the origin. */
  datatype Visit = Visit(node: Node, depth: nat)

  type Edges = Node -> seq<Node>

  /** The elements of s, last first. */
  function Reverse<T>(s: seq<T>): seq<T>
  {
    if s == [] then [] else [s[|s| - 1]] + Reverse(s[..|s| - 1])
  }

  /** Reverse puts the element at index i at index |s| - 1 - i. */
  lemma {:induction false} ReverseIndex<T>(s: seq<T>)
    ensures |Reverse(s)| == |s| && forall i :: 0 <= i < |s| ==> Reverse(s)[i] == s[|s| - 1 - i]
  {
    if s != [] {
      ReverseIndex(s[..|s| - 1]);
    }
  }

  /** The functions of cs, each at depth d. */
  function Tag(cs: seq<Node>, d: nat): (r: seq<Visit>)
    ensures |r| == |cs| && forall i :: 0 <= i < |cs| ==> r[i] == Visit(cs[i], d)
  {
    seq(|cs|, i requires 0 <= i < |cs| => Visit(cs[i], d))
  }

  /** How many more levels may be expanded below depth d. */
  function Rank(d: nat, maxDepth: int): nat
  {
    if d <= maxDepth then maxDepth + 1 - d else 0
  }

  /**
   * The visits of the walk from e at depth d, in the order they are
   * written: e itself, then, when d is within the bound, the subtrees of
   * its callees, the last callee first.
   */
  function Visits(e: Node, d: nat, maxDepth: int, edges: Edges): seq<Visit>
    decreases Rank(d, maxDepth), 1, 0
  {
    [Visit(e, d)] + if d <= maxDepth then VisitsAll(Reverse(edges(e)), d + 1, maxDepth, edges) else []
  }

  /** The walks from each of cs at depth d, one after the other. */
  function VisitsAll(cs: seq<Node>, d: nat, maxDepth: int, edges: Edges): seq<Visit>
    decreases Rank(d, maxDepth), 2, |cs|
  {
    if cs == [] then [] else Visits(cs[0], d, maxDepth, edges) + VisitsAll(cs[1..], d, maxDepth, edges)
  }

  /** What the entries of a stack, front first, still have to write. */
  function Pending(stack: seq<Visit>, maxDepth: int, edges: Edges): seq<Visit>
  {
    if stack == [] then [] else Visits(stack[0].node, stack[0].depth, maxDepth, edges) + Pending(stack[1..], maxDepth, edges)
  }

  /** `d` tabs. */
  function Tabs(d: nat): (t: string)
    ensures |t| == d && forall i :: 0 <= i < d ==> t[i] == '\t'
  {
    if d == 0 then "" else Tabs(d - 1) + "\t"
  }

  /** The line written for a visit: the depth in tabs, the name, the path in parentheses. */
  function Entry(v: Visit): string
  {
    Tabs(v.depth) + v.node.name + " (" + v.node.path + ")" + "\n"
  }

  /** The lines written for a sequence of visits. */
  function Render(vs: seq<Visit>): (out: seq<string>)
    ensures |out| == |vs| && forall i :: 0 <= i < |vs| ==> out[i] == Entry(vs[i])
  {
    seq(|vs|, i requires 0 <= i < |vs| => Entry(vs[i]))
  }

  lemma {:induction false} PendingAppend(a: seq<Visit>, b: seq<Visit>, maxDepth: int, edges: Edges)
    ensures Pending(a + b, maxDepth, edges) == Pending(a, maxDepth, edges) + Pending(b, maxDepth, edges)
  {
    if a == [] {
      assert a + b == b;
    } else {
      assert (a + b)[1..] == a[1..] + b;
      PendingAppend(a[1..], b, maxDepth, edges);
    }
  }

  lemma {:induction false} PendingTag(cs: seq<Node>, d: nat, maxDepth: int, edges: Edges)
    ensures Pending(Tag(cs, d), maxDepth, edges) == VisitsAll(cs, d, maxDepth, edges)
  {
    if cs != [] {
      assert Tag(cs, d)[1..] == Tag(cs[1..], d);
      PendingTag(cs[1..], d, maxDepth, edges);
    }
  }

  class GraphDrawFile {
    /** The function the tree starts from. */
    const origin: Node
    /** The deepest level whose callees are still listed. */
    const depth: int
    /** The database's `get_edges`: the callees of a function. */
    const getEdges: Edges

    constructor(origin: Node, depth: int, getEdges: Edges)
      ensures this.origin == origin && this.depth == depth && this.getEdges == getEdges
    {
      this.origin := origin;
      this.depth := depth;
      this.getEdges := getEdges;
    }

    /** `dfs`: the lines written to the output file are those of the walk from the origin at depth 0. */
    method Dfs() returns (out: seq<string>)
      ensures out == Render(Visits(origin, 0, depth, getEdges))
    {
      var stack := [Visit(origin, 0)];
      ghost var done: seq<Visit> := [];
      out := [];
      assert Pending(stack, depth, getEdges) == Visits(origin, 0, depth, getEdges);
      while |stack| > 0
        invariant out == Render(done)
        invariant done + Pending(stack, depth, getEdges) == Visits(origin, 0, depth, getEdges)
        decreases |Pending(stack, depth, getEdges)|
      {
        var node := stack[0];
        var rest := stack[1..];
        var element := node.node;
        var d := node.depth;
        var entry := Tabs(d) + element.name + " (" + element.path + ")";
        out := out + [entry + "\n"];
        var next := rest;
        if d <= depth {
          var children := getEdges(element);
          next := PushAll(children, d + 1, rest);
        }
        PopStep(stack, next, depth, getEdges);
        Advance(done, node, stack, next, depth, getEdges);
        RenderSnoc(done, node);
        done := done + [node];
        stack := next;
      }
    }
  }

  /** `for child in children: stack.insert(0, (child, d))`: the children land on the stack last first. */
  method PushAll(children: seq<Node>, d: nat, stack0: seq<Visit>) returns (stack: seq<Visit>)
    ensures stack == Tag(Reverse(children), d) + stack0
  {
    stack := stack0;
    var k := 0;
    while k < |children|
      invariant 0 <= k <= |children|
      invariant stack == Tag(Reverse(children[..k]), d) + stack0
    {
      assert children[..k + 1][..k] == children[..k];
      stack := [Visit(children[k], d)] + stack;
      k := k + 1;
    }
    assert children[..k] == children;
  }

  /**
   * Taking the front entry off the stack: it is written first, then the
   * entries its callees push, then the rest of the stack.
   */
  lemma PopStep(stack: seq<Visit>, next: seq<Visit>, maxDepth: int, edges: Edges)
    requires stack != []
    requires next == if stack[0].depth <= maxDepth then Tag(Reverse(edges(stack[0].node)), stack[0].depth + 1) + stack[1..]
      else stack[1..]
    ensures Pending(stack, maxDepth, edges) == [stack[0]] + Pending(next, maxDepth, edges)
  {
    var top := stack[0];
    if top.depth <= maxDepth {
      Expand(top, stack[1..], Reverse(edges(top.node)), maxDepth, edges);
    }
  }

  /** Writing the front entry moves it from what the stack still has to write to what is done, and shortens the former. */
  lemma Advance(done: seq<Visit>, top: Visit, stack: seq<Visit>, next: seq<Visit>, maxDepth: int, edges: Edges)
    requires Pending(stack, maxDepth, edges) == [top] + Pending(next, maxDepth, edges)
    ensures (done + [top]) + Pending(next, maxDepth, edges) == done + Pending(stack, maxDepth, edges)
    ensures |Pending(next, maxDepth, edges)| < |Pending(stack, maxDepth, edges)|
  {
  }

  /** The lines of one more visit: the earlier lines, then its entry. */
  lemma RenderSnoc(done: seq<Visit>, v: Visit)
    ensures Render(done + [v]) == Render(done) + [Entry(v)]
  {
  }

  lemma Expand(top: Visit, rest: seq<Visit>, cs: seq<Node>, maxDepth: int, edges: Edges)
    requires top.depth <= maxDepth && cs == Reverse(edges(top.node))
    ensures Visits(top.node, top.depth, maxDepth, edges) + Pending(rest, maxDepth, edges) ==
      [top] + Pending(Tag(cs, top.depth + 1) + rest, maxDepth, edges)
  {
    var below := VisitsAll(cs, top.depth + 1, maxDepth, edges);
    PendingAppend(Tag(cs, top.depth + 1), rest, maxDepth, edges);
    PendingTag(cs, top.depth + 1, maxDepth, edges);
    assert ([top] + below) + Pending(rest, maxDepth, edges) == [top] + (below + Pending(rest, maxDepth, edges));
  }

  /** The first line written is the origin, at depth 0. */
  lemma FirstLineIsOrigin(origin: Node, maxDepth: int, edges: Edges)
    ensures Render(Visits(origin, 0, maxDepth, edges))[0] == origin.name + " (" + origin.path + ")" + "\n"
  {
    assert Tabs(0) == "";
  }

  /**
   * Every visit of the walk from depth d is at depth d or deeper, and no
   * deeper than d or one level past the bound, whichever is larger:
   * a function at a depth above the bound is written but not expanded.
   */
  lemma {:induction false} DepthBound(e: Node, d: nat, maxDepth: int, edges: Edges)
    ensures forall v :: v in Visits(e, d, maxDepth, edges) ==> d <= v.depth <= if d <= maxDepth + 1 then maxDepth + 1 else d
    decreases Rank(d, maxDepth), 1, 0
  {
    if d <= maxDepth {
      DepthBoundAll(Reverse(edges(e)), d + 1, maxDepth, edges);
    }
  }

  lemma {:induction false} DepthBoundAll(cs: seq<Node>, d: nat, maxDepth: int, edges: Edges)
    requires d <= maxDepth + 1
    ensures forall v :: v in VisitsAll(cs, d, maxDepth, edges) ==> d <= v.depth <= maxDepth + 1
    decreases Rank(d, maxDepth), 2, |cs|
  {
    if cs != [] {
      DepthBound(cs[0], d, maxDepth, edges);
      DepthBoundAll(cs[1..], d, maxDepth, edges);
    }
  }

  /** The number of leading tabs of a line is the depth it was written at, when the name does not start with a tab. */
  lemma EntryDepth(v: Visit)
    requires v.node.name == [] || v.node.name[0] != '\t'
    ensures var line := Entry(v);
      v.depth < |line| && line[..v.depth] == Tabs(v.depth) && line[v.depth] != '\t' && line[|line| - 2..] == ")\n"
  {
    var line := Entry(v);
    assert line == Tabs(v.depth) + (v.node.name + " (" + v.node.path + ")" + "\n");
  }

  /** Callees are inserted at the front one at a time, so the walk enters the last callee get_edges lists first. */
  lemma LastCalleeFirst(e: Node, d: nat, maxDepth: int, edges: Edges)
    requires d <= maxDepth && edges(e) != []
    ensures |Visits(e, d, maxDepth, edges)| >= 2
    ensures Visits(e, d, maxDepth, edges)[1] == Visit(edges(e)[|edges(e)| - 1], d + 1)
  {
    var cs := Reverse(edges(e));
    ReverseIndex(edges(e));
    assert VisitsAll(cs, d + 1, maxDepth, edges)[0] == Visit(cs[0], d + 1);
  }

  /**
   * With no record of visited functions, a function reached along two
   * paths is written twice: in the diamond a -> [b, c], b -> [x], c -> [x],
   * the walk writes a, c, x, b, x.
   */
  lemma Diamond(a: Node, b: Node, c: Node, x: Node, edges: Edges)
    requires edges(a) == [b, c] && edges(b) == [x] && edges(c) == [x] && edges(x) == []
    ensures Visits(a, 0, 5, edges) == [Visit(a, 0), Visit(c, 1), Visit(x, 2), Visit(b, 1), Visit(x, 2)]
  {
    assert Reverse([b, c]) == [c, b];
    assert Reverse([x]) == [x];
    assert Visits(x, 2, 5, edges) == [Visit(x, 2)];
    assert VisitsAll([x], 2, 5, edges) == [Visit(x, 2)];
    assert Visits(c, 1, 5, edges) == [Visit(c, 1), Visit(x, 2)];
    assert Visits(b, 1, 5, edges) == [Visit(b, 1), Visit(x, 2)];
    assert VisitsAll([b], 1, 5, edges) == [Visit(b, 1), Visit(x, 2)];
  }
}
