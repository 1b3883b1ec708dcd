/**
 * What `Navigate` of the older revision (ks-nav/nav/psql.go:251-307)
 * guarantees, proved on its functional description Psql.OldNavFrom by one
 * mutual induction that follows OldNavFrom, OldNavLoop and OldNavStep.
 */
module PsqlProps {
  import opened NavTypes
  import opened Psql
  import DbUtil
  import DbUtilProps
  import Keyed
  import Text

  /**
   * The invariant of a navigation state: no id visited twice, every count
   * positive, and the output the concatenation of pieces that are
   * non-empty, pairwise different and all counted in prod, and every
   * non-empty string counted in prod one of the pieces.
   */
  ghost predicate OldGood(st: OldNavState, pieces: seq<string>)
  {
    DbUtilProps.NoDup(st.visited) &&
    (forall s :: s in st.prod ==> st.prod[s] >= 1) &&
    st.output == Text.Concat(pieces) &&
    (forall k :: 0 <= k < |pieces| ==> pieces[k] != "" && pieces[k] in st.prod) &&
    (forall j, k :: 0 <= j < k < |pieces| ==> pieces[j] != pieces[k]) &&
    (forall s :: s in st.prod && s != "" ==> s in pieces)
  }

  /** Every id visited from position `from` on has a symbol the exclusion list does not match. */
  ghost predicate OldAdmittedFrom(p: OldParams, g: OldGraph, visited: seq<int>, from: int)
  {
    forall k :: 0 <= from <= k < |visited| ==> DbUtil.NotExcluded(p.matches, g.entryOf(visited[k]).value.symbol, p.excluded)
  }

  /** A mode other than PRINT_ALL and PRINT_SUBSYS, with nothing carried yet: no edge string is ever set. */
  predicate Silent(p: OldParams, c: Carry)
  {
    p.mode != PrintAllCode && p.mode != PrintSubsysCode && c.s == ""
  }

  /** Counting an edge string keeps the invariant and extends the pieces by that string at most. */
  lemma CountGood(st: OldNavState, s: string, pieces: seq<string>) returns (pieces': seq<string>)
    requires OldGood(st, pieces)
    ensures OldGood(Count(st, s), pieces') && Count(st, s).visited == st.visited
    ensures pieces' == pieces || pieces' == pieces + [s]
    ensures s == "" ==> pieces' == pieces
  {
    var st' := Count(st, s);
    if s in st.prod || s == "" {
      pieces' := pieces;
      assert st'.output == st.output;
    } else {
      pieces' := pieces + [s];
      Text.ConcatAppend(pieces, s);
      forall j, k | 0 <= j < k < |pieces'| ensures pieces'[j] != pieces'[k] {
        if k == |pieces| {
          assert pieces[j] in st.prod;
        }
      }
    }
  }

  lemma AdmittedJoin(p: OldParams, g: OldGraph, a: seq<int>, b: seq<int>, c: seq<int>)
    requires a <= b <= c
    requires OldAdmittedFrom(p, g, b, |a|) && OldAdmittedFrom(p, g, c, |b|)
    ensures OldAdmittedFrom(p, g, c, |a|)
  {
    forall k | 0 <= |a| <= k < |c| ensures DbUtil.NotExcluded(p.matches, g.entryOf(c[k]).value.symbol, p.excluded) {
      if k < |b| {
        assert c[k] == b[k];
      }
    }
  }

  /** The invariant survives a whole `Navigate` call, which besides its own id visits only admitted ids. */
  lemma {:induction false} OldFromGood(p: OldParams, g: OldGraph, id: int, parent: string, depth: nat,
                                       st: OldNavState, pieces: seq<string>)
    returns (res: OldNavState, pieces': seq<string>)
    requires OldGood(st, pieces) && id !in st.visited
    ensures res == OldNavFrom(p, g, id, parent, depth, st)
    ensures OldGood(res, pieces') && pieces <= pieces'
    ensures OldAdmittedFrom(p, g, res.visited, |st.visited| + 1)
    ensures Silent(p, NoCarry) ==> pieces' == pieces
    decreases |OldUniverse(g) - (DbUtil.Elems(st.visited) + {id})|, 2, 0
  {
    var st1 := st.(visited := st.visited + [id]);
    assert DbUtil.Elems(st1.visited) == DbUtil.Elems(st.visited) + {id};
    assert OldGood(st1, pieces) by {
      NoDupSnoc(st.visited, id);
    }
    OldNavFromUnfold(p, g, id, parent, depth, st);
    res, pieces' := OldLoopGood(p, g, OldDedup(OldSuccessorsOf(g, id)), 0, parent, NoCarry, depth, st1, pieces);
  }

  lemma {:induction false} OldLoopGood(p: OldParams, g: OldGraph, list: seq<OldEntry>, i: nat, l: string, c: Carry, depth: nat,
                                       st: OldNavState, pieces: seq<string>)
    returns (res: OldNavState, pieces': seq<string>)
    requires i <= |list|
    requires forall k :: 0 <= k < |list| ==> list[k].symId in OldUniverse(g)
    requires OldGood(st, pieces)
    ensures res == OldNavLoop(p, g, list, i, l, c, depth, st)
    ensures OldGood(res, pieces') && pieces <= pieces'
    ensures OldAdmittedFrom(p, g, res.visited, |st.visited|)
    ensures Silent(p, c) ==> pieces' == pieces
    decreases |OldUniverse(g) - DbUtil.Elems(st.visited)|, 1, |list| - i
  {
    if i == |list| {
      res, pieces' := st, pieces;
    } else {
      var c' := CarryFor(p, g, l, c, list[i]);
      var st', mid := OldStepGood(p, g, c', list[i], depth, st, pieces);
      assert |OldUniverse(g) - DbUtil.Elems(st'.visited)| <= |OldUniverse(g) - DbUtil.Elems(st.visited)| by {
        DbUtil.PrefixElems(st.visited, st'.visited);
        DbUtil.UnvisitedNoGrow(OldUniverse(g), DbUtil.Elems(st.visited), DbUtil.Elems(st'.visited));
      }
      res, pieces' := OldLoopGood(p, g, list, i + 1, l, c', depth, st', mid);
      assert res == OldNavLoop(p, g, list, i, l, c, depth, st) by {
        OldNavLoopUnfold(p, g, list, i, l, c, depth, st);
      }
      AdmittedJoin(p, g, st.visited, st'.visited, res.visited);
    }
  }

  lemma {:induction false} OldStepGood(p: OldParams, g: OldGraph, c: Carry, curr: OldEntry, depth: nat,
                                       st: OldNavState, pieces: seq<string>)
    returns (res: OldNavState, pieces': seq<string>)
    requires curr.symId in OldUniverse(g)
    requires OldGood(st, pieces)
    ensures res == OldNavStep(p, g, c, curr, depth, st)
    ensures OldGood(res, pieces') && pieces <= pieces'
    ensures OldAdmittedFrom(p, g, res.visited, |st.visited|)
    ensures Silent(p, c) ==> pieces' == pieces
    decreases |OldUniverse(g) - DbUtil.Elems(st.visited)|, 0, 1
  {
    var st2 := Count(st, c.s);
    var mid := CountGood(st, c.s, pieces);
    if OldDescend(p, g, st2, curr, depth) {
      res, pieces' := OldDescendGood(p, g, c, curr, depth, st, st2, mid);
    } else {
      res, pieces' := st2, mid;
    }
  }

  /** The recursive call of `Navigate` on a successor that is new and admitted. */
  lemma {:induction false} OldDescendGood(p: OldParams, g: OldGraph, c: Carry, curr: OldEntry, depth: nat,
                                          st: OldNavState, st2: OldNavState, mid: seq<string>)
    returns (res: OldNavState, pieces': seq<string>)
    requires curr.symId in OldUniverse(g)
    requires st2.visited == st.visited && OldGood(st2, mid)
    requires OldDescend(p, g, st2, curr, depth)
    ensures res == OldNavFrom(p, g, curr.symId, c.ll, depth + c.depthInc, st2)
    ensures OldGood(res, pieces') && mid <= pieces'
    ensures OldAdmittedFrom(p, g, res.visited, |st.visited|)
    ensures Silent(p, NoCarry) ==> pieces' == mid
    decreases |OldUniverse(g) - DbUtil.Elems(st.visited)|, 0, 0
  {
    assert curr.symId !in st2.visited;
    assert |OldUniverse(g) - (DbUtil.Elems(st2.visited) + {curr.symId})| < |OldUniverse(g) - DbUtil.Elems(st.visited)| by {
      DbUtil.UnvisitedShrinks(OldUniverse(g), DbUtil.Elems(st.visited), DbUtil.Elems(st.visited), curr.symId);
    }
    res, pieces' := OldFromGood(p, g, curr.symId, c.ll, depth + c.depthInc, st2, mid);
    forall k | |st.visited| <= k < |res.visited|
      ensures DbUtil.NotExcluded(p.matches, g.entryOf(res.visited[k]).value.symbol, p.excluded)
    {
      if k == |st.visited| {
        assert res.visited[k] == curr.symId;
      }
    }
  }

  lemma NoDupSnoc(s: seq<int>, x: int)
    requires DbUtilProps.NoDup(s) && x !in s
    ensures DbUtilProps.NoDup(s + [x])
  {
  }

  /** The state `Navigate` starts from in `generate_output`. */
  const OldInitial: OldNavState := OldNavState([], map[], "")

  /**
   * A navigation from scratch visits no id twice, starts at the root, and
   * visits besides it only ids whose symbol the exclusion list does not match.
   */
  lemma OldNavigateVisitsOnce(p: OldParams, g: OldGraph, id: int, parent: string, depth: nat)
    ensures var res := OldNavFrom(p, g, id, parent, depth, OldInitial);
      DbUtilProps.NoDup(res.visited) && res.visited[0] == id && OldAdmittedFrom(p, g, res.visited, 1)
  {
    var res, pieces := OldFromGood(p, g, id, parent, depth, OldInitial, []);
  }

  /**
   * The output of a navigation from scratch is the concatenation of
   * non-empty edge strings, each printed once and each counted in prod,
   * and every non-empty edge string counted in prod is printed.
   */
  lemma OldNavigateOutputPieces(p: OldParams, g: OldGraph, id: int, parent: string, depth: nat) returns (pieces: seq<string>)
    ensures var res := OldNavFrom(p, g, id, parent, depth, OldInitial);
      res.output == Text.Concat(pieces) &&
      (forall k :: 0 <= k < |pieces| ==> pieces[k] != "" && pieces[k] in res.prod && res.prod[pieces[k]] >= 1) &&
      (forall j, k :: 0 <= j < k < |pieces| ==> pieces[j] != pieces[k]) &&
      (forall s :: s in res.prod && s != "" ==> s in pieces)
  {
    var res;
    res, pieces := OldFromGood(p, g, id, parent, depth, OldInitial, []);
  }

  /** With a mode other than PRINT_ALL and PRINT_SUBSYS nothing is ever printed. */
  lemma OldOtherModeSilent(p: OldParams, g: OldGraph, id: int, parent: string, depth: nat)
    requires p.mode != PrintAllCode && p.mode != PrintSubsysCode
    ensures OldNavFrom(p, g, id, parent, depth, OldInitial).output == ""
  {
    var res, pieces := OldFromGood(p, g, id, parent, depth, OldInitial, []);
  }

  /**
   * Whatever the mode, `Navigate` walks the successors deduplicated: sorted
   * by strictly ascending id, one entry per id of the successor list.
   */
  lemma OldNavigateDedups(p: OldParams, g: OldGraph, id: int, parent: string, depth: nat, st: OldNavState)
    ensures var list := OldDedup(OldSuccessorsOf(g, id));
      Keyed.StrictlyAscending(list, OldSymId) &&
      Keyed.Keys(list, OldSymId) == Keyed.Keys(OldSuccessorsOf(g, id), OldSymId) &&
      (forall k :: 0 <= k < |list| ==> list[k].symId in OldUniverse(g)) &&
      OldNavFrom(p, g, id, parent, depth, st)
        == OldNavLoop(p, g, list, 0, parent, NoCarry, depth, st.(visited := st.visited + [id]))
  {
    OldDedupFacts(OldSuccessorsOf(g, id));
    OldNavFromUnfold(p, g, id, parent, depth, st);
  }

  /**
   * In PRINT_SUBSYS the right end is the callee's subsystem, "UNDEFINED
   * SUBSYSTEM" when it has none, or the name itself when the two are equal,
   * and an edge is printed only between different ends; otherwise the edge
   * string is "" and depthInc keeps the value of an earlier successor.
   */
  lemma OldSubsysEdge(p: OldParams, g: OldGraph, l: string, c: Carry, curr: OldEntry)
    requires p.mode == PrintSubsysCode
    requires p.dotFmt.NoVerbs? || p.dotFmt.pre + p.dotFmt.mid + p.dotFmt.post != ""
    ensures var r := RightOf(g, curr);
      var tmp := g.subsysOf(r);
      var c' := CarryFor(p, g, l, c, curr);
      c'.ll == (if tmp == r then r else if tmp != "" then tmp else UndefinedSubsystem) &&
      (c'.s != "" <==> l != c'.ll) &&
      (l != c'.ll ==> c'.s == Sprintf2(p.dotFmt, l, c'.ll) && c'.depthInc == 1) &&
      (l == c'.ll ==> c'.depthInc == c.depthInc)
  {
  }

  /**
   * depthInc is never reset: a successor in the left end's own subsystem,
   * after one that printed an edge, still descends one level deeper.
   */
  lemma OldDepthIncCarried(p: OldParams, g: OldGraph, l: string, c: Carry, first: OldEntry, second: OldEntry)
    requires p.mode == PrintSubsysCode
    requires SubsysName(g, RightOf(g, first)) != l && SubsysName(g, RightOf(g, second)) == l
    ensures var c2 := CarryFor(p, g, l, CarryFor(p, g, l, c, first), second);
      c2.s == "" && c2.depthInc == 1 && c2.ll == l
  {
  }

  /** In PRINT_ALL every successor prints `l` to its symbol, or to "Unknown" when its entry cannot be read. */
  lemma OldPrintAllEdge(p: OldParams, g: OldGraph, l: string, c: Carry, curr: OldEntry)
    requires p.mode == PrintAllCode
    ensures var c' := CarryFor(p, g, l, c, curr);
      var got := g.entryOf(curr.symId);
      c'.s == Sprintf2(p.dotFmt, l, if got.err.Some? then UnknownSymbol else got.value.symbol) && c'.depthInc == 1
  {
  }

  /** Past the depth bound a successor is counted but never explored. */
  lemma OldDepthBound(p: OldParams, g: OldGraph, c: Carry, curr: OldEntry, depth: nat, st: OldNavState)
    requires curr.symId in OldUniverse(g)
    requires p.maxdepth > 0 && depth >= p.maxdepth
    ensures OldNavStep(p, g, c, curr, depth, st) == Count(st, c.s)
  {
  }
}
