/**
 * The list logic of the indexer's radare2 front end
 * (ks-nav/kern_bin_db/r2tool.go): deduplicating cross references and
 * names, picking the relocations inside a function, and the two lookups
 * over the function table, a linear one and a binary search that relies on
 * the table being sorted by offset.
 *
 * The radare2 commands that produce these lists are not modelled; only the
 * fields the functions read are kept in the records.
 */
module R2Tool {
  import opened Wrappers
  import Keyed
  import Text

  const TwoTo64: int := 0x1_0000_0000_0000_0000

  /** Go's uint64. */
  type U64 = x: int | 0 <= x < TwoTo64

  /** `xref`: a reference from one address to another; indirect calls have To == 0. */
  datatype Xref = Xref(kind: string, from: U64, to: U64)

  /** `func_data`, reduced to the fields the lookups read. */
  datatype FuncData = FuncData(offset: U64, name: string, size: U64)

  /** `reloc_data`, reduced to the fields get_f_relocs reads. */
  datatype RelocData = RelocData(name: string, vaddr: U64, symVa: U64)

  function Offset(f: FuncData): int { f.offset }

  function Name(f: FuncData): string { f.name }

  /** The zero value of `func_data`, what get_f_relocs holds when no function matches. */
  const NoFunc: FuncData := FuncData(0, "", 0)

  /**
   * `get_function_by_addr`: the position of the first function at addr
   * (the pointer the source returns), or None.
   */
  method GetFunctionByAddr(addr: U64, funcs: seq<FuncData>) returns (r: Option<nat>)
    ensures r.Some? <==> addr in Keyed.Keys(funcs, Offset)
    ensures r.Some? ==> r.value == Keyed.IndexOfKey(funcs, Offset, addr) && funcs[r.value].offset == addr
  {
    var i := 0;
    while i < |funcs|
      invariant 0 <= i <= |funcs|
      invariant forall k :: 0 <= k < i ==> funcs[k].offset != addr
    {
      if addr == funcs[i].offset {
        assert Offset(funcs[i]) == addr;
        return Some(i);
      }
      i := i + 1;
    }
    return None;
  }

  /** The key removeDuplicate tells xrefs apart by: the target, or the source of an indirect call. */
  function XrefKey(x: Xref): int
  {
    if x.to != 0 then x.to else x.from
  }

  /**
   * `removeDuplicate`: the first xref of each key, in input order; the
   * map of seen keys is a set since it only ever holds true.
   */
  method RemoveDuplicate(list: seq<Xref>) returns (res: seq<Xref>)
    ensures res == Keyed.KeepFirst(list, XrefKey, {})
    ensures Keyed.UniqueKeys(res, XrefKey)
    ensures Keyed.Keys(res, XrefKey) == Keyed.Keys(list, XrefKey)
    ensures Keyed.FirstOccurrences(list, XrefKey, res)
  {
    var allKeys: set<int> := {};
    res := [];
    var i := 0;
    while i < |list|
      invariant 0 <= i <= |list|
      invariant res + Keyed.KeepFirst(list[i..], XrefKey, allKeys) == Keyed.KeepFirst(list, XrefKey, {})
    {
      var item := list[i];
      var key := XrefKey(item);
      Keyed.KeepFirstLoopStep(list, i, XrefKey, allKeys, res);
      if key !in allKeys {
        allKeys := allKeys + {key};
        res := res + [item];
      }
      i := i + 1;
    }
    assert list[i..] == [];
    XrefDedupFacts(list);
  }

  /** The facts about deduplicating xrefs by key, from those about KeepFirst. */
  lemma XrefDedupFacts(list: seq<Xref>)
    ensures var r := Keyed.KeepFirst(list, XrefKey, {});
      Keyed.UniqueKeys(r, XrefKey) && Keyed.Keys(r, XrefKey) == Keyed.Keys(list, XrefKey) &&
      Keyed.FirstOccurrences(list, XrefKey, r)
  {
    Keyed.KeepFirstUnique(list, XrefKey, {});
    Keyed.KeepFirstKeys(list, XrefKey, {});
    Keyed.KeepFirstIsFirst(list, XrefKey, {});
  }

  /**
   * A list with pairwise different keys comes back whole, and xrefs
   * appended after it whose keys it already has are exactly the ones
   * removed.
   */
  lemma RemoveDuplicateAppended(s: seq<Xref>, t: seq<Xref>)
    requires Keyed.UniqueKeys(s, XrefKey)
    requires Keyed.Keys(t, XrefKey) <= Keyed.Keys(s, XrefKey)
    ensures Keyed.KeepFirst(s, XrefKey, {}) == s
    ensures Keyed.KeepFirst(s + t, XrefKey, {}) == s
    ensures |Keyed.KeepFirst(s + t, XrefKey, {})| == |s + t| - |t|
  {
    Keyed.KeepFirstKeepsUnique(s, XrefKey, {});
    Keyed.KeepFirstAppend(s, t, XrefKey, {});
    Keyed.KeepFirstAllSeen(t, XrefKey, {} + Keyed.Keys(s, XrefKey));
  }

  /** `removeSDup`: each string once, at its first position. */
  method RemoveSDup(list: seq<string>) returns (res: seq<string>)
    ensures res == Keyed.KeepFirst(list, Keyed.Itself, {})
    ensures forall i, j :: 0 <= i < j < |res| ==> res[i] != res[j]
    ensures forall x :: x in res <==> x in list
    ensures Keyed.FirstOccurrences(list, Keyed.Itself, res)
  {
    var allKeys: set<string> := {};
    res := [];
    var i := 0;
    while i < |list|
      invariant 0 <= i <= |list|
      invariant res + Keyed.KeepFirst(list[i..], Keyed.Itself, allKeys) == Keyed.KeepFirst(list, Keyed.Itself, {})
    {
      var item := list[i];
      assert Keyed.Itself(item) == item;
      Keyed.KeepFirstLoopStep(list, i, Keyed.Itself, allKeys, res);
      if item !in allKeys {
        allKeys := allKeys + {item};
        res := res + [item];
      }
      i := i + 1;
    }
    assert list[i..] == [];
    SDupFacts(list);
  }

  /** The facts about deduplicating by value, from those about KeepFirst. */
  lemma SDupFacts(list: seq<string>)
    ensures var r := Keyed.KeepFirst(list, Keyed.Itself, {});
      (forall i, j :: 0 <= i < j < |r| ==> r[i] != r[j]) &&
      (forall x :: x in r <==> x in list) &&
      Keyed.FirstOccurrences(list, Keyed.Itself, r)
  {
    var r := Keyed.KeepFirst(list, Keyed.Itself, {});
    Keyed.KeepFirstUnique(list, Keyed.Itself, {});
    Keyed.KeepFirstKeys(list, Keyed.Itself, {});
    Keyed.KeepFirstIsFirst(list, Keyed.Itself, {});
    forall x ensures x in r <==> x in list {
      assert x in r <==> Keyed.Itself(x) in Keyed.Keys(r, Keyed.Itself);
      assert x in list <==> Keyed.Itself(x) in Keyed.Keys(list, Keyed.Itself);
    }
    forall i, j | 0 <= i < j < |r| ensures r[i] != r[j] {
      assert Keyed.Itself(r[i]) != Keyed.Itself(r[j]);
    }
  }

  /** The first function named sym, or the zero value when there is none. */
  function FunctionNamed(funcs: seq<FuncData>, sym: string): (f: FuncData)
    ensures sym in Keyed.Keys(funcs, Name) ==> f in funcs && f.name == sym
    ensures sym !in Keyed.Keys(funcs, Name) ==> f == NoFunc
  {
    if sym in Keyed.Keys(funcs, Name) then Keyed.FirstWithKey(funcs, Name, sym) else NoFunc
  }

  /**
   * A relocation get_f_relocs attributes to fun: no symbol address, and a
   * virtual address from the function's offset to offset + size inclusive,
   * the sum wrapping around as a uint64.
   */
  predicate InFunc(r: RelocData, fun: FuncData)
  {
    r.symVa == 0 && r.vaddr >= fun.offset && r.vaddr <= (fun.offset + fun.size) % TwoTo64
  }

  /** The names of the relocations in fun, in input order, repeats included. */
  function RelocNames(relocs: seq<RelocData>, fun: FuncData): seq<string>
  {
    if relocs == [] then []
    else (if InFunc(relocs[0], fun) then [relocs[0].name] else []) + RelocNames(relocs[1..], fun)
  }

  /** What get_f_relocs returns. */
  function FRelocsOf(sym: string, relocs: seq<RelocData>, funcs: seq<FuncData>): Result<seq<string>, string>
  {
    var fun := FunctionNamed(funcs, sym);
    if fun.name == "" then Err("symbol not found")
    else Ok(Keyed.KeepFirst(RelocNames(relocs, fun), Keyed.Itself, {}))
  }

  /** `get_f_relocs`: the first function named sym, then the deduplicated names of its relocations. */
  method GetFRelocs(sym: string, relocs: seq<RelocData>, funcs: seq<FuncData>) returns (r: Result<seq<string>, string>)
    ensures r == FRelocsOf(sym, relocs, funcs)
  {
    var fun := FindNamed(funcs, sym);
    if fun.name == "" {
      return Err("symbol not found");
    }
    var res := CollectRelocNames(relocs, fun);
    var names := RemoveSDup(res);
    return Ok(names);
  }

  /** The first loop of get_f_relocs: the first function named sym, or the zero value. */
  method FindNamed(funcs: seq<FuncData>, sym: string) returns (fun: FuncData)
    ensures fun == FunctionNamed(funcs, sym)
  {
    fun := NoFunc;
    var i := 0;
    while i < |funcs|
      invariant 0 <= i <= |funcs|
      invariant forall k :: 0 <= k < i ==> funcs[k].name != sym
    {
      if funcs[i].name == sym {
        fun := funcs[i];
        assert Name(fun) == sym;
        assert i == Keyed.IndexOfKey(funcs, Name, sym);
        return;
      }
      i := i + 1;
    }
  }

  /** The second loop of get_f_relocs: the names of the relocations inside fun. */
  method CollectRelocNames(relocs: seq<RelocData>, fun: FuncData) returns (res: seq<string>)
    ensures res == RelocNames(relocs, fun)
  {
    res := [];
    var j := 0;
    while j < |relocs|
      invariant 0 <= j <= |relocs|
      invariant res + RelocNames(relocs[j..], fun) == RelocNames(relocs, fun)
    {
      var rel := relocs[j];
      assert relocs[j..] == [rel] + relocs[j + 1..];
      if rel.symVa == 0 && rel.vaddr >= fun.offset && rel.vaddr <= (fun.offset + fun.size) % TwoTo64 {
        res := res + [rel.name];
      }
      j := j + 1;
    }
    assert relocs[j..] == [];
  }

  /** get_f_relocs fails exactly when no function has the name, or the name is empty. */
  lemma FRelocsNotFound(sym: string, relocs: seq<RelocData>, funcs: seq<FuncData>)
    ensures FRelocsOf(sym, relocs, funcs).Err? <==> sym == "" || forall f :: f in funcs ==> f.name != sym
    ensures FRelocsOf(sym, relocs, funcs).Err? ==> FRelocsOf(sym, relocs, funcs).error == "symbol not found"
  {
    if forall f :: f in funcs ==> f.name != sym {
      assert sym !in Keyed.Keys(funcs, Name);
    } else {
      var f :| f in funcs && f.name == sym;
      assert Name(f) == sym;
    }
  }

  /** The names RelocNames collects are those of the relocations in the function. */
  lemma {:induction false} RelocNamesMembers(relocs: seq<RelocData>, fun: FuncData)
    ensures forall x :: x in RelocNames(relocs, fun) <==> exists r :: r in relocs && InFunc(r, fun) && r.name == x
  {
    if relocs != [] {
      RelocNamesMembers(relocs[1..], fun);
      forall x ensures x in RelocNames(relocs, fun) <==> exists r :: r in relocs && InFunc(r, fun) && r.name == x {
        if exists r :: r in relocs && InFunc(r, fun) && r.name == x {
          var r :| r in relocs && InFunc(r, fun) && r.name == x;
          if r != relocs[0] {
            var k :| 0 <= k < |relocs| && relocs[k] == r;
            assert relocs[1..][k - 1] == r;
          }
        }
      }
    }
  }

  /**
   * On success, get_f_relocs lists each name of a relocation inside the
   * first function named sym exactly once, and nothing else.
   */
  lemma FRelocsContents(sym: string, relocs: seq<RelocData>, funcs: seq<FuncData>)
    requires FRelocsOf(sym, relocs, funcs).Ok?
    ensures var names := FRelocsOf(sym, relocs, funcs).value;
      (forall i, j :: 0 <= i < j < |names| ==> names[i] != names[j]) &&
      forall x :: x in names <==> exists r :: r in relocs && InFunc(r, FunctionNamed(funcs, sym)) && r.name == x
  {
    RelocNamesMembers(relocs, FunctionNamed(funcs, sym));
    SDupFacts(RelocNames(relocs, FunctionNamed(funcs, sym)));
  }

  /**
   * Go's `sort.Search` over [i, j) with the test `list[h].Offset >= addr`:
   * halve the range, keep the upper half when the middle entry fails the test.
   */
  function Search(list: seq<FuncData>, addr: int, i: int, j: int): (r: int)
    requires 0 <= i <= j <= |list|
    ensures i <= r <= j
    decreases j - i
  {
    if i < j then
      var h := (i + j) / 2;
      if !(list[h].offset >= addr) then Search(list, addr, h + 1, j) else Search(list, addr, i, h)
    else i
  }

  /** On a list sorted by offset, Search stops at the first entry whose offset is at least addr. */
  lemma {:induction false} SearchSorted(list: seq<FuncData>, addr: int, i: int, j: int)
    requires 0 <= i <= j <= |list|
    requires Keyed.SortedBy(list, Offset)
    requires forall k :: 0 <= k < i ==> list[k].offset < addr
    requires forall k :: j <= k < |list| ==> list[k].offset >= addr
    ensures forall k :: 0 <= k < Search(list, addr, i, j) ==> list[k].offset < addr
    ensures forall k :: Search(list, addr, i, j) <= k < |list| ==> list[k].offset >= addr
    decreases j - i
  {
    if i < j {
      var h := (i + j) / 2;
      if list[h].offset < addr {
        forall k | 0 <= k <= h ensures list[k].offset < addr {
          assert Offset(list[k]) <= Offset(list[h]);
        }
        SearchSorted(list, addr, h + 1, j);
      } else {
        forall k | h <= k < |list| ensures list[k].offset >= addr {
          assert Offset(list[h]) <= Offset(list[k]);
        }
        SearchSorted(list, addr, i, h);
      }
    }
  }

  /** A name is_func accepts: a symbol or an indirect-call thunk. */
  predicate FuncName(name: string)
  {
    Text.Contains(name, "sym.") || Text.Contains(name, "__x86_indirect_thunk")
  }

  /** `is_func`: the entry the search stops at sits at addr and has a function name. */
  function IsFunc(addr: int, list: seq<FuncData>): (r: bool)
    ensures r ==> addr in Keyed.Keys(list, Offset)
  {
    var i := Search(list, addr, 0, |list|);
    if i < |list| && list[i].offset == addr && FuncName(list[i].name) then
      assert Offset(list[i]) == addr;
      true
    else false
  }

  /** `Addr2Sym`: the name of the entry the search stops at when it sits at addr, "Unknown" otherwise. */
  function Addr2Sym(addr: int, list: seq<FuncData>): (r: string)
    ensures r != "Unknown" ==> addr in Keyed.Keys(list, Offset)
  {
    var i := Search(list, addr, 0, |list|);
    if i < |list| && list[i].offset == addr then
      assert Offset(list[i]) == addr;
      list[i].name
    else "Unknown"
  }

  /** On a sorted list the binary search finds what the linear get_function_by_addr finds. */
  lemma SearchIsFirst(addr: int, list: seq<FuncData>)
    requires Keyed.SortedBy(list, Offset)
    ensures var i := Search(list, addr, 0, |list|);
      (addr in Keyed.Keys(list, Offset) <==> i < |list| && list[i].offset == addr) &&
      (addr in Keyed.Keys(list, Offset) ==> i == Keyed.IndexOfKey(list, Offset, addr))
  {
    var i := Search(list, addr, 0, |list|);
    SearchSorted(list, addr, 0, |list|);
    if i < |list| && list[i].offset == addr {
      assert Offset(list[i]) == addr && list[i] in list;
    }
    if addr in Keyed.Keys(list, Offset) {
      var k := Keyed.IndexOfKey(list, Offset, addr);
      assert list[k].offset == addr;
      assert i <= k;
      assert Offset(list[i]) <= Offset(list[k]);
      assert list[i].offset == addr;
      assert i == k;
    }
  }

  /**
   * On a list sorted by offset, is_func holds exactly when the first
   * function at addr has a symbol or thunk name, and Addr2Sym returns that
   * function's name, or "Unknown" when no function sits at addr.
   */
  lemma LookupsSorted(addr: int, list: seq<FuncData>)
    requires Keyed.SortedBy(list, Offset)
    ensures IsFunc(addr, list) <==>
      addr in Keyed.Keys(list, Offset) && FuncName(Keyed.FirstWithKey(list, Offset, addr).name)
    ensures Addr2Sym(addr, list) ==
      if addr in Keyed.Keys(list, Offset) then Keyed.FirstWithKey(list, Offset, addr).name else "Unknown"
  {
    SearchIsFirst(addr, list);
  }

  /** An xref remove_non_func keeps: an indirect call, or one whose target is a function. */
  predicate KeptXref(x: Xref, functions: seq<FuncData>)
  {
    IsFunc(x.to, functions) || x.to == 0
  }

  /** What remove_non_func returns. */
  function FuncXrefs(list: seq<Xref>, functions: seq<FuncData>): seq<Xref>
  {
    if list == [] then []
    else (if KeptXref(list[0], functions) then [list[0]] else []) + FuncXrefs(list[1..], functions)
  }

  /** `remove_non_func`: the xrefs that target a function or are indirect. */
  method RemoveNonFunc(list: seq<Xref>, functions: seq<FuncData>) returns (res: seq<Xref>)
    ensures res == FuncXrefs(list, functions)
  {
    res := [];
    var i := 0;
    while i < |list|
      invariant 0 <= i <= |list|
      invariant res + FuncXrefs(list[i..], functions) == FuncXrefs(list, functions)
    {
      var item := list[i];
      assert list[i..] == [item] + list[i + 1..];
      if IsFunc(item.to, functions) || item.to == 0 {
        res := res + [item];
      }
      i := i + 1;
    }
    assert list[i..] == [];
  }

  /** remove_non_func keeps exactly the xrefs it should. */
  lemma {:induction false} FuncXrefsMembers(a: seq<Xref>, functions: seq<FuncData>)
    ensures forall x :: x in FuncXrefs(a, functions) <==> x in a && KeptXref(x, functions)
  {
    if a != [] {
      FuncXrefsMembers(a[1..], functions);
      forall x ensures x in FuncXrefs(a, functions) <==> x in a && KeptXref(x, functions) {
        if x in a && x != a[0] {
          var k :| 0 <= k < |a| && a[k] == x;
          assert a[1..][k - 1] == x;
        }
      }
    }
  }

  /** remove_non_func splits over concatenation, so the kept xrefs stay in input order. */
  lemma {:induction false} FuncXrefsAppend(a: seq<Xref>, b: seq<Xref>, functions: seq<FuncData>)
    ensures FuncXrefs(a + b, functions) == FuncXrefs(a, functions) + FuncXrefs(b, functions)
  {
    if a == [] {
      assert a + b == b;
    } else {
      FuncXrefsAppend(a[1..], b, functions);
      assert (a + b)[1..] == a[1..] + b;
      assert (a + b)[0] == a[0];
      var h := if KeptXref(a[0], functions) then [a[0]] else [];
      assert FuncXrefs(a + b, functions) == h + FuncXrefs(a[1..] + b, functions);
      assert FuncXrefs(a, functions) == h + FuncXrefs(a[1..], functions);
      assert h + (FuncXrefs(a[1..], functions) + FuncXrefs(b, functions)) ==
        (h + FuncXrefs(a[1..], functions)) + FuncXrefs(b, functions);
    }
  }
}
