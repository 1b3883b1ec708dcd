/**
 * The call-graph navigator of ks-nav/nav/db_util.go: the list helpers and
 * the recursive `navigate`, which walks the callees of a symbol and
 * accumulates the visited ids, the subsystem adjacency pairs, a count per
 * printed edge and the output text.
 *
 * The datasource is seen through `Graph`, the answers it gives for one
 * instance: the successor list of each id (a failed lookup answers the
 * empty list, which `navigate` treats the same way) and the subsystem of
 * each symbol name (a failed or missing lookup answers "").
 */
module DbUtil {
  import opened NavTypes
  import Keyed

  /** `notIn`: true iff v does not occur in list. */
  function NotIn(list: seq<int>, v: int): (r: bool)
    ensures r <==> v !in list
  {
    if list == [] then true
    else if list[0] == v then false
    else
      assert list == [list[0]] + list[1..];
      NotIn(list[1..], v)
  }

  /**
   * `notExcluded`: true iff no pattern of excluded matches symbol, where
   * `matches(pattern, symbol)` stands for `regexp.MatchString`.
   */
  function NotExcluded(matches: (string, string) -> bool, symbol: string, excluded: seq<string>): (r: bool)
    ensures r <==> forall k :: 0 <= k < |excluded| ==> !matches(excluded[k], symbol)
  {
    if excluded == [] then true
    else if matches(excluded[0], symbol) then false
    else
      var rest := NotExcluded(matches, symbol, excluded[1..]);
      assert forall k :: 1 <= k < |excluded| ==> excluded[k] == excluded[1..][k - 1];
      rest
  }

  /** `intargets`: true iff n1 or n2 is one of the targets. */
  function InTargets(targets: seq<string>, n1: string, n2: string): (r: bool)
    ensures r <==> (n1 in targets || n2 in targets)
  {
    if targets == [] then false
    else if targets[0] == n1 || targets[0] == n2 then true
    else
      assert targets == [targets[0]] + targets[1..];
      InTargets(targets[1..], n1, n2)
  }

  /** What `removeDuplicate` returns: the entries stably sorted by id, first of each id kept. */
  function Dedup(list: seq<Entry>): seq<Entry>
  {
    Keyed.KeepFirst(Keyed.SortBy(list, SymId), SymId, {})
  }

  /**
   * Dedup's result has strictly ascending ids, the same ids as the input,
   * and for each id the entry that came first in the input.
   */
  lemma DedupFacts(list: seq<Entry>)
    ensures var r := Dedup(list);
      Keyed.StrictlyAscending(r, SymId) &&
      Keyed.Keys(r, SymId) == Keyed.Keys(list, SymId) &&
      (forall i :: 0 <= i < |r| ==> r[i] in list) &&
      (forall i :: 0 <= i < |r| ==> r[i].symId in Keyed.Keys(list, SymId) && r[i] == Keyed.FirstWithKey(list, SymId, r[i].symId))
  {
    var sorted := Keyed.SortBy(list, SymId);
    var r := Dedup(list);
    Keyed.SortByFacts(list, SymId);
    Keyed.KeepFirstSortedAscending(sorted, SymId, {});
    Keyed.KeepFirstKeys(sorted, SymId, {});
    Keyed.KeepFirstElements(sorted, SymId, {});
    Keyed.KeepFirstIsFirst(sorted, SymId, {});
    assert Keyed.Keys(sorted, SymId) == Keyed.Keys(list, SymId) by {
      assert forall x :: x in sorted <==> x in multiset(sorted);
      assert forall x :: x in list <==> x in multiset(list);
    }
    forall i | 0 <= i < |r|
      ensures r[i] in list
      ensures r[i].symId in Keyed.Keys(list, SymId) && r[i] == Keyed.FirstWithKey(list, SymId, r[i].symId)
    {
      assert r[i] in sorted;
      assert r[i] in multiset(sorted);
      Keyed.SortByFirstWithKey(list, SymId, r[i].symId);
    }
  }

  /**
   * `removeDuplicate`: sorts the list by id (`sort.SliceStable`, a library
   * call) and keeps the first entry of each id with a map of seen ids.
   */
  method RemoveDuplicate(list: seq<Entry>) returns (res: seq<Entry>)
    ensures res == Dedup(list)
    ensures Keyed.StrictlyAscending(res, SymId)
    ensures Keyed.Keys(res, SymId) == Keyed.Keys(list, SymId)
    ensures forall i :: 0 <= i < |res| ==> res[i] in list
  {
    var sorted := Keyed.SortBy(list, SymId);
    var allKeys: set<int> := {};
    res := [];
    var i := 0;
    while i < |sorted|
      invariant 0 <= i <= |sorted|
      invariant res + Keyed.KeepFirst(sorted[i..], SymId, allKeys) == Keyed.KeepFirst(sorted, SymId, {})
    {
      var item := sorted[i];
      assert sorted[i..] == [item] + sorted[i + 1..];
      if item.symId !in allKeys {
        allKeys := allKeys + {item.symId};
        res := res + [item];
      }
      i := i + 1;
    }
    DedupFacts(list);
  }

  /** The answers the datasource gives for one instance. */
  datatype Graph = Graph(succ: map<int, seq<Entry>>, subsys: map<string, string>)

  /** `getSuccessorsById` as `navigate` sees it. */
  function SuccessorsOf(g: Graph, id: int): seq<Entry>
  {
    if id in g.succ then g.succ[id] else []
  }

  /** `getSubsysFromSymbolName` as `navigate` sees it (its error is ignored there). */
  function SubsysOf(g: Graph, symbol: string): string
  {
    if symbol in g.subsys then g.subsys[symbol] else ""
  }

  /** Every id that occurs in some successor list. */
  ghost function Universe(g: Graph): set<int>
  {
    set id, e | id in g.succ && e in g.succ[id] :: e.symId
  }

  ghost function Elems(s: seq<int>): set<int>
  {
    set x | x in s
  }

  lemma SuccessorsInUniverse(g: Graph, id: int)
    ensures forall k :: 0 <= k < |SuccessorsOf(g, id)| ==> SuccessorsOf(g, id)[k].symId in Universe(g)
  {
    if id in g.succ {
      forall k | 0 <= k < |g.succ[id]| ensures g.succ[id][k].symId in Universe(g) {
        var e := g.succ[id][k];
        assert e in g.succ[id];
      }
    }
  }

  lemma DedupInUniverse(g: Graph, list: seq<Entry>)
    requires forall k :: 0 <= k < |list| ==> list[k].symId in Universe(g)
    ensures forall k :: 0 <= k < |Dedup(list)| ==> Dedup(list)[k].symId in Universe(g)
  {
    DedupFacts(list);
    forall k | 0 <= k < |Dedup(list)| ensures Dedup(list)[k].symId in Universe(g) {
      var j :| 0 <= j < |list| && list[j] == Dedup(list)[k];
    }
  }

  /** Visiting one more id of the universe shrinks the set of ids still unvisited. */
  lemma UnvisitedShrinks(u: set<int>, a: set<int>, b: set<int>, x: int)
    requires a <= b && x in u && x !in b
    ensures |u - (b + {x})| < |u - a|
  {
    var small := u - (b + {x});
    var big := u - a;
    assert big == small + (big - small);
    assert x in big - small;
    assert small * (big - small) == {};
  }

  /** Visiting more ids never grows the set of ids still unvisited. */
  lemma UnvisitedNoGrow(u: set<int>, a: set<int>, b: set<int>)
    requires a <= b
    ensures |u - b| <= |u - a|
  {
    var small := u - b;
    var big := u - a;
    assert big == small + (big - small);
    assert small * (big - small) == {};
  }

  lemma ElemsSnoc(s: seq<int>, x: int)
    ensures Elems(s + [x]) == Elems(s) + {x}
  {
  }

  lemma PrefixElems(a: seq<int>, b: seq<int>)
    requires a <= b
    ensures Elems(a) <= Elems(b)
  {
    forall x | x in a ensures x in b {
      var i :| 0 <= i < |a| && a[i] == x;
      assert b[i] == x;
    }
  }

  /** The fixed arguments of one `navigate` run. */
  datatype Params = Params(
    targets: seq<string>,
    mode: OutMode,
    excludedAfter: seq<string>,
    excludedBefore: seq<string>,
    maxdepth: int,
    dotFmt: DotFmt,
    matches: (string, string) -> bool)

  /** The state `navigate` threads through its pointers and map. */
  datatype NavState = NavState(visited: seq<int>, adjMap: seq<AdjM>, prod: map<string, int>, output: string)

  /** What one successor contributes: edge string, new right node, depth increment, adjacency pairs. */
  datatype Link = Link(s: string, r: Node, depthInc: int, adj: seq<AdjM>)

  /**
   * The right node and edge for successor curr, given the left node l and the
   * right node r left over from the previous successor (db_util.go:130-159).
   */
  function LinkFor(p: Params, g: Graph, l: Node, r: Node, curr: Entry): Link
  {
    var tmp := SubsysOf(g, curr.symbol);
    var r1 := r.(symbol := curr.symbol, sourceRef := curr.sourceRef, addressRef := curr.addressRef,
                 subsys := if tmp == "" then SubsysUndef else r.subsys);
    if p.mode == PrintAll then
      Link(Sprintf2(p.dotFmt, l.symbol, r1.symbol), r1, 1, [])
    else
      var r2 := if r1.subsys != tmp then r1.(subsys := if tmp != "" then tmp else SubsysUndef) else r1;
      if l.subsys != r2.subsys then Link(Sprintf2(p.dotFmt, l.subsys, r2.subsys), r2, 1, [AdjM(l, r2)])
      else Link("", r2, 0, [])
  }

  /** Counting s in prod, and appending it to the output on its first, non-empty, wanted occurrence. */
  function Record(p: Params, st: NavState, s: string, l: Node, r: Node): NavState
  {
    if s in st.prod then st.(prod := st.prod[s := st.prod[s] + 1])
    else
      var emit := s != "" && (p.mode != PrintTargeted || InTargets(p.targets, l.subsys, r.subsys));
      st.(prod := st.prod[s := 1], output := if emit then st.output + s else st.output)
  }

  /** The test guarding the recursive call (db_util.go:173-174). */
  function Descend(p: Params, st: NavState, curr: Entry, depth: int, depthInc: int): bool
  {
    NotIn(st.visited, curr.symId)
    && NotExcluded(p.matches, curr.symbol, p.excludedAfter)
    && NotExcluded(p.matches, curr.symbol, p.excludedBefore)
    && (p.maxdepth == 0 || (p.maxdepth > 0 && depth + depthInc < p.maxdepth))
  }

  /** The successors `navigate` iterates over: deduplicated in PrintAll mode only. */
  function ListFor(p: Params, g: Graph, id: int): seq<Entry>
  {
    if p.mode == PrintAll then Dedup(SuccessorsOf(g, id)) else SuccessorsOf(g, id)
  }

  lemma ListInUniverse(p: Params, g: Graph, id: int)
    ensures forall k :: 0 <= k < |ListFor(p, g, id)| ==> ListFor(p, g, id)[k].symId in Universe(g)
  {
    SuccessorsInUniverse(g, id);
    if p.mode == PrintAll {
      DedupInUniverse(g, SuccessorsOf(g, id));
    }
  }

  /**
   * The state after `navigate(d, id, parent, ...)` starting from st.
   * It terminates on every finite graph, cyclic or not, because each nested
   * call visits an id of the finite universe that was not yet visited.
   */
  function NavFrom(p: Params, g: Graph, id: int, parent: Node, depth: int, st: NavState): (r: NavState)
    ensures st.visited + [id] <= r.visited
    decreases |Universe(g) - (Elems(st.visited) + {id})|, 2, 0
  {
    var st1 := st.(visited := st.visited + [id]);
    assert Elems(st1.visited) == Elems(st.visited) + {id};
    ListInUniverse(p, g, id);
    NavLoop(p, g, ListFor(p, g, id), 0, parent, ZeroNode, depth, st1)
  }

  /** The loop of `navigate` from successor i on, with left node l and the right node r carried over. */
  function NavLoop(p: Params, g: Graph, list: seq<Entry>, i: nat, l: Node, r: Node, depth: int, st: NavState): (res: NavState)
    requires i <= |list|
    requires forall k :: 0 <= k < |list| ==> list[k].symId in Universe(g)
    ensures st.visited <= res.visited
    decreases |Universe(g) - Elems(st.visited)|, 1, |list| - i
  {
    if i == |list| then st
    else
      var curr := list[i];
      var st' := NavStep(p, g, l, r, curr, depth, st);
      PrefixElems(st.visited, st'.visited);
      UnvisitedNoGrow(Universe(g), Elems(st.visited), Elems(st'.visited));
      NavLoop(p, g, list, i + 1, l, NextRight(p, g, l, r, curr), depth, st')
  }

  lemma NavLoopEnd(p: Params, g: Graph, list: seq<Entry>, i: nat, l: Node, r: Node, depth: int, st: NavState)
    requires i == |list|
    requires forall k :: 0 <= k < |list| ==> list[k].symId in Universe(g)
    ensures NavLoop(p, g, list, i, l, r, depth, st) == st
  {
  }

  lemma NavLoopUnfold(p: Params, g: Graph, list: seq<Entry>, i: nat, l: Node, r: Node, depth: int, st: NavState)
    requires i < |list|
    requires forall k :: 0 <= k < |list| ==> list[k].symId in Universe(g)
    ensures NavLoop(p, g, list, i, l, r, depth, st)
         == NavLoop(p, g, list, i + 1, l, NextRight(p, g, l, r, list[i]), depth, NavStep(p, g, l, r, list[i], depth, st))
  {
  }

  lemma NavFromUnfold(p: Params, g: Graph, id: int, parent: Node, depth: int, st: NavState)
    ensures forall k :: 0 <= k < |ListFor(p, g, id)| ==> ListFor(p, g, id)[k].symId in Universe(g)
    ensures NavFrom(p, g, id, parent, depth, st)
         == NavLoop(p, g, ListFor(p, g, id), 0, parent, ZeroNode, depth, st.(visited := st.visited + [id]))
  {
    ListInUniverse(p, g, id);
  }

  lemma NavStepUnfold(p: Params, g: Graph, l: Node, r: Node, curr: Entry, depth: int, st: NavState)
    requires curr.symId in Universe(g)
    requires NotExcluded(p.matches, curr.symbol, p.excludedBefore)
    ensures var link := LinkFor(p, g, l, r, curr);
      var st2 := Record(p, st.(adjMap := st.adjMap + link.adj), link.s, l, link.r);
      NavStep(p, g, l, r, curr, depth, st)
         == if Descend(p, st2, curr, depth, link.depthInc) then NavFrom(p, g, curr.symId, link.r, depth + link.depthInc, st2) else st2
  {
  }

  /** The right node the loop carries to the next successor. */
  function NextRight(p: Params, g: Graph, l: Node, r: Node, curr: Entry): Node
  {
    if NotExcluded(p.matches, curr.symbol, p.excludedBefore) then LinkFor(p, g, l, r, curr).r else r
  }

  /** One iteration of the loop of `navigate`, for successor curr (db_util.go:128-177). */
  function NavStep(p: Params, g: Graph, l: Node, r: Node, curr: Entry, depth: int, st: NavState): (res: NavState)
    requires curr.symId in Universe(g)
    ensures st.visited <= res.visited
    decreases |Universe(g) - Elems(st.visited)|, 0, 0
  {
    if !NotExcluded(p.matches, curr.symbol, p.excludedBefore) then st
    else
      var link := LinkFor(p, g, l, r, curr);
      var st2 := Record(p, st.(adjMap := st.adjMap + link.adj), link.s, l, link.r);
      if Descend(p, st2, curr, depth, link.depthInc) then
        UnvisitedShrinks(Universe(g), Elems(st2.visited), Elems(st2.visited), curr.symId);
        NavFrom(p, g, curr.symId, link.r, depth + link.depthInc, st2)
      else st2
  }

  /** The state `navigate` shares between its recursive calls. */
  class Navigator {
    var visited: seq<int>
    var adjMap: seq<AdjM>
    var prod: map<string, int>
    var output: string

    function State(): NavState
      reads this
    {
      NavState(visited, adjMap, prod, output)
    }

    constructor ()
      ensures State() == NavState([], [], map[], "")
    {
      visited := [];
      adjMap := [];
      prod := map[];
      output := "";
    }

    /** `navigate`: the recursive walk, proved to end in the state NavFrom describes. */
    method Navigate(p: Params, g: Graph, symbolId: int, parentDisplay: Node, depth: int)
      modifies this
      ensures State() == NavFrom(p, g, symbolId, parentDisplay, depth, old(State()))
      decreases |Universe(g) - (Elems(visited) + {symbolId})|, 3
    {
      ghost var st0 := State();
      visited := visited + [symbolId];
      var successors := SuccessorsOf(g, symbolId);
      if p.mode == PrintAll {
        successors := RemoveDuplicate(successors);
      }
      assert successors == ListFor(p, g, symbolId);
      assert Elems(visited) == Elems(st0.visited) + {symbolId} by {
        ElemsSnoc(st0.visited, symbolId);
      }
      NavFromUnfold(p, g, symbolId, parentDisplay, depth, st0);
      Walk(p, g, successors, parentDisplay, depth);
    }

    /** The loop of `navigate` over the successors, with left node l (db_util.go:126-180). */
    method Walk(p: Params, g: Graph, successors: seq<Entry>, l: Node, depth: int)
      requires forall k :: 0 <= k < |successors| ==> successors[k].symId in Universe(g)
      modifies this
      ensures State() == NavLoop(p, g, successors, 0, l, ZeroNode, depth, old(State()))
      decreases |Universe(g) - Elems(visited)|, 2
    {
      ghost var st0 := State();
      var r := ZeroNode;
      var i := 0;
      while i < |successors|
        invariant 0 <= i <= |successors|
        invariant |Universe(g) - Elems(visited)| <= |Universe(g) - Elems(st0.visited)|
        invariant NavLoop(p, g, successors, i, l, r, depth, State()) == NavLoop(p, g, successors, 0, l, ZeroNode, depth, st0)
      {
        ghost var before := State();
        ghost var r0 := r;
        r := Visit(p, g, l, r, successors[i], depth);
        assert |Universe(g) - Elems(visited)| <= |Universe(g) - Elems(before.visited)| by {
          PrefixElems(before.visited, visited);
          UnvisitedNoGrow(Universe(g), Elems(before.visited), Elems(visited));
        }
        assert NavLoop(p, g, successors, i, l, r0, depth, before) == NavLoop(p, g, successors, i + 1, l, r, depth, State()) by {
          NavLoopUnfold(p, g, successors, i, l, r0, depth, before);
        }
        i := i + 1;
      }
      NavLoopEnd(p, g, successors, i, l, r, depth, State());
    }

    /** The body of the loop of `navigate` for one successor; returns the right node carried on. */
    method Visit(p: Params, g: Graph, l: Node, r0: Node, curr: Entry, depth: int) returns (r: Node)
      requires curr.symId in Universe(g)
      modifies this
      ensures State() == NavStep(p, g, l, r0, curr, depth, old(State()))
      ensures r == NextRight(p, g, l, r0, curr)
      decreases |Universe(g) - Elems(visited)|, 1
    {
      r := r0;
      if NotExcluded(p.matches, curr.symbol, p.excludedBefore) {
        ghost var st := State();
        var ll, depthInc;
        r, ll, depthInc := Connect(p, g, l, r0, curr);
        assert NavStep(p, g, l, r0, curr, depth, st)
          == if Descend(p, State(), curr, depth, depthInc) then NavFrom(p, g, curr.symId, ll, depth + depthInc, State()) else State() by {
          NavStepUnfold(p, g, l, r0, curr, depth, st);
        }
        Follow(p, g, curr, ll, depth, depthInc);
      }
    }

    /** The recursive call of `navigate` on curr, when curr is new and passes both filters and the depth bound (db_util.go:173-177). */
    method Follow(p: Params, g: Graph, curr: Entry, ll: Node, depth: int, depthInc: int)
      requires curr.symId in Universe(g)
      modifies this
      ensures State() == if Descend(p, old(State()), curr, depth, depthInc)
        then NavFrom(p, g, curr.symId, ll, depth + depthInc, old(State())) else old(State())
      decreases |Universe(g) - Elems(visited)|, 0
    {
      if NotIn(visited, curr.symId) {
        if NotExcluded(p.matches, curr.symbol, p.excludedAfter)
          && NotExcluded(p.matches, curr.symbol, p.excludedBefore)
          && (p.maxdepth == 0 || (p.maxdepth > 0 && depth + depthInc < p.maxdepth))
        {
          assert |Universe(g) - (Elems(visited) + {curr.symId})| < |Universe(g) - Elems(visited)| by {
            UnvisitedShrinks(Universe(g), Elems(visited), Elems(visited), curr.symId);
          }
          Navigate(p, g, curr.symId, ll, depth + depthInc);
        }
      }
    }

    /**
     * Lines 130-172 of `navigate`: the right node and edge string for curr,
     * the adjacency pair, and the count and output update for the edge.
     */
    method Connect(p: Params, g: Graph, l: Node, r0: Node, curr: Entry) returns (r: Node, ll: Node, depthInc: int)
      modifies this
      ensures var link := LinkFor(p, g, l, r0, curr);
        r == link.r && ll == link.r && depthInc == link.depthInc &&
        State() == Record(p, old(State()).(adjMap := old(adjMap) + link.adj), link.s, l, link.r)
    {
      ghost var before := State();
      r := r0.(symbol := curr.symbol, sourceRef := curr.sourceRef, addressRef := curr.addressRef);
      var tmp := SubsysOf(g, r.symbol);
      if tmp == "" {
        r := r.(subsys := SubsysUndef);
      }
      var s: string;
      depthInc := 0;
      if p.mode == PrintAll {
        s := Sprintf2(p.dotFmt, l.symbol, r.symbol);
        ll := r;
        depthInc := 1;
      } else {
        tmp := SubsysOf(g, r.symbol);
        if r.subsys != tmp {
          r := r.(subsys := if tmp != "" then tmp else SubsysUndef);
        }
        if l.subsys != r.subsys {
          s := Sprintf2(p.dotFmt, l.subsys, r.subsys);
          adjMap := adjMap + [AdjM(l, r)];
          depthInc := 1;
        } else {
          s := "";
        }
        ll := r;
      }
      ghost var link := LinkFor(p, g, l, r0, curr);
      assert link == Link(s, r, depthInc, link.adj);
      assert State() == before.(adjMap := before.adjMap + link.adj);
      if s in prod {
        prod := prod[s := prod[s] + 1];
      } else {
        prod := prod[s := 1];
        if s != "" {
          if p.mode != PrintTargeted || InTargets(p.targets, l.subsys, r.subsys) {
            output := output + s;
          }
        }
      }
    }
  }
}
