/**
 * What `navigate` (ks-nav/nav/db_util.go:116-181) guarantees about the state
 * it accumulates, proved on its functional description DbUtil.NavFrom.
 *
 * Each property is proved by one mutual induction that follows NavFrom,
 * NavLoop and NavStep call for call, with the same termination measure.
 */
module DbUtilProps {
  import opened NavTypes
  import opened DbUtil
  import Text

  predicate NoDup(s: seq<int>) {
    forall j, k :: 0 <= j < k < |s| ==> s[j] != s[k]
  }

  /**
   * The invariant of a navigation state: no id visited twice, every
   * adjacency pair joins two different subsystems, every count positive,
   * and the output is the concatenation of pieces that are non-empty,
   * pairwise different and all counted in prod; outside the targeted mode
   * every non-empty string counted in prod is one of the pieces.
   */
  ghost predicate Good(p: Params, st: NavState, pieces: seq<string>)
  {
    NoDup(st.visited) &&
    (forall k :: 0 <= k < |st.adjMap| ==> st.adjMap[k].l.subsys != st.adjMap[k].r.subsys) &&
    (forall s :: s in st.prod ==> st.prod[s] >= 1) &&
    st.output == Text.Concat(pieces) &&
    (forall k :: 0 <= k < |pieces| ==> pieces[k] != "" && pieces[k] in st.prod) &&
    (forall j, k :: 0 <= j < k < |pieces| ==> pieces[j] != pieces[k]) &&
    (p.mode != PrintTargeted ==> forall s :: s in st.prod && s != "" ==> s in pieces)
  }

  /** Id x is the id of some successor entry that neither exclusion list matches. */
  ghost predicate Admitted(p: Params, g: Graph, x: int)
  {
    exists src, e :: src in g.succ && e in g.succ[src] && e.symId == x
      && NotExcluded(p.matches, e.symbol, p.excludedAfter)
      && NotExcluded(p.matches, e.symbol, p.excludedBefore)
  }

  /** Every id visited from position `from` on was admitted by both exclusion lists. */
  ghost predicate AdmittedFrom(p: Params, g: Graph, visited: seq<int>, from: int)
  {
    forall k :: 0 <= from <= k < |visited| ==> Admitted(p, g, visited[k])
  }

  /** Every entry of list is in the successor list of src. */
  ghost predicate FromSource(g: Graph, src: int, list: seq<Entry>)
  {
    forall k :: 0 <= k < |list| ==> src in g.succ && list[k] in g.succ[src]
  }

  lemma ListForFromSource(p: Params, g: Graph, id: int)
    ensures FromSource(g, id, ListFor(p, g, id))
  {
    var succ := SuccessorsOf(g, id);
    var list := ListFor(p, g, id);
    if p.mode == PrintAll {
      DedupFacts(succ);
    }
    forall k | 0 <= k < |list| ensures id in g.succ && list[k] in g.succ[id] {
      assert list[k] in succ;
    }
  }

  /** The adjacency pair a successor adds always joins two different subsystems (db_util.go:152-155). */
  lemma LinkAdjCrosses(p: Params, g: Graph, l: Node, r: Node, curr: Entry)
    ensures var link := LinkFor(p, g, l, r, curr);
      forall k :: 0 <= k < |link.adj| ==> link.adj[k].l == l && link.adj[k].r == link.r && l.subsys != link.r.subsys
  {
  }

  /**
   * The collapse rule of the subsystem modes: an adjacency pair is added,
   * an edge text formatted and depthInc set to 1 exactly when the two ends
   * lie in different subsystems; between ends in the same subsystem the
   * edge text is "" and depthInc 0. In PRINT_ALL the edge joins the two
   * symbols, with depthInc 1 and no pair.
   */
  lemma LinkCollapse(p: Params, g: Graph, l: Node, r: Node, curr: Entry)
    ensures var link := LinkFor(p, g, l, r, curr);
      p.mode != PrintAll && l.subsys != link.r.subsys ==>
        link.adj == [AdjM(l, link.r)] && link.s == Sprintf2(p.dotFmt, l.subsys, link.r.subsys) && link.depthInc == 1
    ensures var link := LinkFor(p, g, l, r, curr);
      p.mode != PrintAll && l.subsys == link.r.subsys ==> link.adj == [] && link.s == "" && link.depthInc == 0
    ensures var link := LinkFor(p, g, l, r, curr);
      p.mode != PrintAll && (p.dotFmt.NoVerbs? || p.dotFmt.pre + p.dotFmt.mid + p.dotFmt.post != "") ==>
        (link.s != "" <==> l.subsys != link.r.subsys)
    ensures var link := LinkFor(p, g, l, r, curr);
      p.mode == PrintAll ==>
        link.adj == [] && link.s == Sprintf2(p.dotFmt, l.symbol, curr.symbol) && link.depthInc == 1
  {
  }

  /**
   * In the subsystem modes the right node's subsystem depends only on the
   * callee's symbol: its subsystem, or "The REST" when it has none.
   */
  lemma LinkSubsys(p: Params, g: Graph, l: Node, r: Node, curr: Entry)
    requires p.mode != PrintAll
    ensures var tmp := SubsysOf(g, curr.symbol);
      LinkFor(p, g, l, r, curr).r.subsys == (if tmp == "" then SubsysUndef else tmp)
  {
  }

  /** Recording an edge keeps the invariant and extends the pieces by s at most. */
  lemma RecordGood(p: Params, st: NavState, s: string, l: Node, r: Node, pieces: seq<string>) returns (pieces': seq<string>)
    requires Good(p, st, pieces)
    ensures Good(p, Record(p, st, s, l, r), pieces')
    ensures pieces' == pieces || pieces' == pieces + [s]
    ensures p.mode == PrintTargeted && !InTargets(p.targets, l.subsys, r.subsys) ==> pieces' == pieces
  {
    var st' := Record(p, st, s, l, r);
    if s in st.prod || s == "" || (p.mode == PrintTargeted && !InTargets(p.targets, l.subsys, r.subsys)) {
      pieces' := pieces;
      assert st'.output == st.output;
    } else {
      pieces' := pieces + [s];
      Text.ConcatAppend(pieces, s);
      forall j, k | 0 <= j < k < |pieces'| ensures pieces'[j] != pieces'[k] {
        if k == |pieces| {
          assert pieces[j] in st.prod;
        }
      }
    }
  }

  /** The invariant survives a whole `navigate` call, which visits only admitted ids besides its own. */
  lemma {:induction false} FromGood(p: Params, g: Graph, id: int, parent: Node, depth: int, st: NavState, pieces: seq<string>)
    returns (res: NavState, pieces': seq<string>)
    requires Good(p, st, pieces) && id !in st.visited
    ensures res == NavFrom(p, g, id, parent, depth, st)
    ensures Good(p, res, pieces')
    ensures pieces <= pieces'
    ensures AdmittedFrom(p, g, res.visited, |st.visited| + 1)
    ensures p.mode == PrintTargeted && p.targets == [] ==> pieces' == pieces
    decreases |Universe(g) - (Elems(st.visited) + {id})|, 2, 0
  {
    var st1 := st.(visited := st.visited + [id]);
    assert Elems(st1.visited) == Elems(st.visited) + {id};
    NavFromUnfold(p, g, id, parent, depth, st);
    ListForFromSource(p, g, id);
    res, pieces' := LoopGood(p, g, id, ListFor(p, g, id), 0, parent, ZeroNode, depth, st1, pieces);
  }

  lemma AdmittedJoin(p: Params, g: Graph, a: seq<int>, b: seq<int>, c: seq<int>)
    requires a <= b <= c
    requires AdmittedFrom(p, g, b, |a|) && AdmittedFrom(p, g, c, |b|)
    ensures AdmittedFrom(p, g, c, |a|)
  {
    forall k | 0 <= |a| <= k < |c| ensures Admitted(p, g, c[k]) {
      if k < |b| {
        assert c[k] == b[k];
      }
    }
  }

  lemma {:induction false} LoopGood(p: Params, g: Graph, src: int, list: seq<Entry>, i: nat, l: Node, r: Node, depth: int,
                                    st: NavState, pieces: seq<string>)
    returns (res: NavState, pieces': seq<string>)
    requires i <= |list|
    requires forall k :: 0 <= k < |list| ==> list[k].symId in Universe(g)
    requires FromSource(g, src, list)
    requires Good(p, st, pieces)
    ensures res == NavLoop(p, g, list, i, l, r, depth, st)
    ensures Good(p, res, pieces')
    ensures pieces <= pieces'
    ensures AdmittedFrom(p, g, res.visited, |st.visited|)
    ensures p.mode == PrintTargeted && p.targets == [] ==> pieces' == pieces
    decreases |Universe(g) - Elems(st.visited)|, 1, |list| - i
  {
    if i == |list| {
      NavLoopEnd(p, g, list, i, l, r, depth, st);
      res, pieces' := st, pieces;
    } else {
      var st', mid := StepGood(p, g, src, l, r, list[i], depth, st, pieces);
      assert |Universe(g) - Elems(st'.visited)| <= |Universe(g) - Elems(st.visited)| by {
        PrefixElems(st.visited, st'.visited);
        UnvisitedNoGrow(Universe(g), Elems(st.visited), Elems(st'.visited));
      }
      var r' := NextRight(p, g, l, r, list[i]);
      res, pieces' := LoopGood(p, g, src, list, i + 1, l, r', depth, st', mid);
      assert res == NavLoop(p, g, list, i, l, r, depth, st) by {
        NavLoopUnfold(p, g, list, i, l, r, depth, st);
      }
      AdmittedJoin(p, g, st.visited, st'.visited, res.visited);
    }
  }

  lemma {:induction false} StepGood(p: Params, g: Graph, src: int, l: Node, r: Node, curr: Entry, depth: int,
                                    st: NavState, pieces: seq<string>)
    returns (res: NavState, pieces': seq<string>)
    requires curr.symId in Universe(g)
    requires src in g.succ && curr in g.succ[src]
    requires Good(p, st, pieces)
    ensures res == NavStep(p, g, l, r, curr, depth, st)
    ensures Good(p, res, pieces')
    ensures pieces <= pieces'
    ensures AdmittedFrom(p, g, res.visited, |st.visited|)
    ensures p.mode == PrintTargeted && p.targets == [] ==> pieces' == pieces
    decreases |Universe(g) - Elems(st.visited)|, 0, 1
  {
    if !NotExcluded(p.matches, curr.symbol, p.excludedBefore) {
      res, pieces' := st, pieces;
    } else {
      var st2, rr, inc, mid := StepFacts(p, g, l, r, curr, depth, st, pieces);
      if Descend(p, st2, curr, depth, inc) {
        res, pieces' := DescendGood(p, g, src, curr, rr, depth + inc, st, st2, mid);
      } else {
        res, pieces' := st2, mid;
      }
    }
  }

  /** The recursive call of `navigate` on a successor that passed both filters and was not yet visited. */
  lemma {:induction false} DescendGood(p: Params, g: Graph, src: int, curr: Entry, rr: Node, depth: int,
                                       st: NavState, st2: NavState, mid: seq<string>)
    returns (res: NavState, pieces': seq<string>)
    requires curr.symId in Universe(g)
    requires src in g.succ && curr in g.succ[src]
    requires NotExcluded(p.matches, curr.symbol, p.excludedAfter) && NotExcluded(p.matches, curr.symbol, p.excludedBefore)
    requires st2.visited == st.visited && curr.symId !in st.visited
    requires Good(p, st2, mid)
    ensures res == NavFrom(p, g, curr.symId, rr, depth, st2)
    ensures Good(p, res, pieces')
    ensures mid <= pieces'
    ensures AdmittedFrom(p, g, res.visited, |st.visited|)
    ensures p.mode == PrintTargeted && p.targets == [] ==> pieces' == mid
    decreases |Universe(g) - Elems(st.visited)|, 0, 0
  {
    assert |Universe(g) - (Elems(st2.visited) + {curr.symId})| < |Universe(g) - Elems(st.visited)| by {
      UnvisitedShrinks(Universe(g), Elems(st.visited), Elems(st.visited), curr.symId);
    }
    res, pieces' := FromGood(p, g, curr.symId, rr, depth, st2, mid);
    forall k | |st.visited| <= k < |res.visited| ensures Admitted(p, g, res.visited[k]) {
      if k == |st.visited| {
        assert res.visited[k] == curr.symId;
        assert curr in g.succ[src];
      }
    }
  }

  /** What one successor that passes excludedBefore does before the recursive call. */
  lemma StepFacts(p: Params, g: Graph, l: Node, r: Node, curr: Entry, depth: int, st: NavState, pieces: seq<string>)
    returns (st2: NavState, rr: Node, inc: int, mid: seq<string>)
    requires curr.symId in Universe(g)
    requires NotExcluded(p.matches, curr.symbol, p.excludedBefore)
    requires Good(p, st, pieces)
    ensures Good(p, st2, mid) && pieces <= mid && st2.visited == st.visited
    ensures p.mode == PrintTargeted && p.targets == [] ==> mid == pieces
    ensures NavStep(p, g, l, r, curr, depth, st)
         == if Descend(p, st2, curr, depth, inc) then NavFrom(p, g, curr.symId, rr, depth + inc, st2) else st2
  {
    var link := LinkFor(p, g, l, r, curr);
    rr, inc := link.r, link.depthInc;
    var sta := st.(adjMap := st.adjMap + link.adj);
    assert Good(p, sta, pieces) by {
      LinkAdjCrosses(p, g, l, r, curr);
    }
    st2 := Record(p, sta, link.s, l, link.r);
    mid := RecordGood(p, sta, link.s, l, link.r, pieces);
    NavStepUnfold(p, g, l, r, curr, depth, st);
  }

  /** The state `navigate` starts from in `generate_output`. */
  const Initial: NavState := NavState([], [], map[], "")

  /**
   * A navigation from scratch visits no id twice, starts at the root, and
   * visits besides it only ids that some caller lists and neither
   * exclusion list matches.
   */
  lemma NavigateVisitsOnce(p: Params, g: Graph, id: int, parent: Node, depth: int)
    ensures var res := NavFrom(p, g, id, parent, depth, Initial);
      NoDup(res.visited) && res.visited[0] == id && AdmittedFrom(p, g, res.visited, 1)
  {
    var res, pieces := FromGood(p, g, id, parent, depth, Initial, []);
  }

  /**
   * The output of a navigation from scratch is the concatenation of
   * non-empty edge strings, each printed once and each counted in prod;
   * outside the targeted mode every non-empty edge string counted in prod
   * is printed.
   */
  lemma NavigateOutputPieces(p: Params, g: Graph, id: int, parent: Node, depth: int) returns (pieces: seq<string>)
    ensures var res := NavFrom(p, g, id, parent, depth, Initial);
      res.output == Text.Concat(pieces) &&
      (forall k :: 0 <= k < |pieces| ==> pieces[k] != "" && pieces[k] in res.prod && res.prod[pieces[k]] >= 1) &&
      (forall j, k :: 0 <= j < k < |pieces| ==> pieces[j] != pieces[k]) &&
      (p.mode != PrintTargeted ==> forall s :: s in res.prod && s != "" ==> s in pieces)
  {
    var res;
    res, pieces := FromGood(p, g, id, parent, depth, Initial, []);
  }

  /** Every adjacency pair recorded by a navigation from scratch joins two different subsystems. */
  lemma NavigateAdjCrosses(p: Params, g: Graph, id: int, parent: Node, depth: int)
    ensures var res := NavFrom(p, g, id, parent, depth, Initial);
      forall k :: 0 <= k < |res.adjMap| ==> res.adjMap[k].l.subsys != res.adjMap[k].r.subsys
  {
    var res, pieces := FromGood(p, g, id, parent, depth, Initial, []);
  }

  /** In targeted mode with no targets nothing is printed. */
  lemma NavigateNoTargetsNoOutput(p: Params, g: Graph, id: int, parent: Node, depth: int)
    requires p.mode == PrintTargeted && p.targets == []
    ensures NavFrom(p, g, id, parent, depth, Initial).output == ""
  {
    var res, pieces := FromGood(p, g, id, parent, depth, Initial, []);
  }

  lemma {:induction false} ConcatPrefix(a: seq<string>, b: seq<string>)
    requires a <= b
    ensures Text.Concat(a) <= Text.Concat(b)
    decreases |a|
  {
    if a != [] {
      assert a[1..] <= b[1..];
      ConcatPrefix(a[1..], b[1..]);
    }
  }

  /** A nested `navigate` only appends to the output it was given. */
  lemma NavigateOutputGrows(p: Params, g: Graph, id: int, parent: Node, depth: int, st: NavState, pieces: seq<string>)
    requires Good(p, st, pieces) && id !in st.visited
    ensures st.output <= NavFrom(p, g, id, parent, depth, st).output
  {
    var res, pieces' := FromGood(p, g, id, parent, depth, st, pieces);
    ConcatPrefix(pieces, pieces');
  }
}
