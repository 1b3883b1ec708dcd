/**
 * Two pieces of the source-file parser's domain model
 * (funcParser_tool/domain.py): the list merge that adds the items of a
 * subsidiary list to a main list without duplicates, and the rule that
 * moves a '*' written before a function's name into its return type.
 */
module Domain {
  import opened Wrappers
  import Keyed
  import Text

  /** The values of the items that are not None, in order. */
  function Values<T>(sub: seq<Option<T>>): (vs: seq<T>)
    ensures |vs| <= |sub|
  {
    if sub == [] then []
    else
      var rest := Values(sub[1..]);
      if sub[0].Some? then [sub[0].value] + rest else rest
  }

  /** The values are exactly the x with Some(x) in the list. */
  lemma {:induction false} ValuesMembers<T>(sub: seq<Option<T>>, x: T)
    ensures x in Values(sub) <==> Some(x) in sub
  {
    if sub != [] {
      ValuesMembers(sub[1..], x);
      assert Some(x) in sub <==> Some(x) == sub[0] || Some(x) in sub[1..];
    }
  }

  /** The main list after the merge loop has taken the items of sub, one at a time. */
  function Merge<T(==)>(main: seq<T>, sub: seq<Option<T>>): seq<T>
    decreases |sub|
  {
    if sub == [] then main
    else if sub[0].Some? && sub[0].value !in main then Merge(main + [sub[0].value], sub[1..])
    else Merge(main, sub[1..])
  }

  /** A Python list object, the main list the merge appends to. */
  class ItemList<T(==)> {
    var items: seq<T>

    constructor(items: seq<T>)
      ensures this.items == items
    {
      this.items := items;
    }

    /**
     * `__merge_lists(main_list, subsidiary_list)` with this list as
     * main_list: each item of the subsidiary list that is not None and not
     * yet in the list is appended; the list itself is what is returned.
     */
    method MergeLists(subsidiary: seq<Option<T>>) returns (result: ItemList<T>)
      modifies this
      ensures result == this
      ensures items == Merge(old(items), subsidiary)
    {
      var i := 0;
      while i < |subsidiary|
        invariant 0 <= i <= |subsidiary|
        invariant Merge(items, subsidiary[i..]) == Merge(old(items), subsidiary)
      {
        var cur := subsidiary[i];
        assert subsidiary[i..][1..] == subsidiary[i + 1..];
        if cur.Some? && cur.value !in items {
          items := items + [cur.value];
        }
        i := i + 1;
      }
      assert subsidiary[i..] == [];
      result := this;
    }
  }

  /** The items of a list. */
  function Members<T>(s: seq<T>): set<T>
  {
    set x | x in s
  }

  /**
   * The merge appends, to the main list, the values of the subsidiary list
   * that are not in the main list, each once, at its first occurrence: the
   * keep-first filter of the values with the main list's items marked seen.
   */
  lemma {:induction false} MergeIsKeepFirst<T>(main: seq<T>, sub: seq<Option<T>>)
    ensures Merge(main, sub) == main + Keyed.KeepFirst(Values(sub), Keyed.Itself, Members(main))
    decreases |sub|
  {
    if sub == [] {
      assert main + [] == main;
    } else {
      var rest := sub[1..];
      if sub[0].Some? {
        var x := sub[0].value;
        assert Values(sub) == [x] + Values(rest);
        assert Keyed.Itself(x) == x;
        if x !in main {
          var main' := main + [x];
          MergeIsKeepFirst(main', rest);
          assert Members(main') == Members(main) + {x};
          var added := Keyed.KeepFirst(Values(rest), Keyed.Itself, Members(main) + {x});
          assert Keyed.KeepFirst(Values(sub), Keyed.Itself, Members(main)) == [x] + added;
          assert main' + added == main + ([x] + added);
        } else {
          MergeIsKeepFirst(main, rest);
          assert Keyed.KeepFirst(Values(sub), Keyed.Itself, Members(main)) ==
            Keyed.KeepFirst(Values(rest), Keyed.Itself, Members(main));
        }
      } else {
        MergeIsKeepFirst(main, rest);
        assert Values(sub) == Values(rest);
      }
    }
  }

  /** Items already in the main list keep their positions: the merge only appends. */
  lemma MergePrefix<T>(main: seq<T>, sub: seq<Option<T>>)
    ensures |main| <= |Merge(main, sub)| && Merge(main, sub)[..|main|] == main
  {
    MergeIsKeepFirst(main, sub);
    var added := Keyed.KeepFirst(Values(sub), Keyed.Itself, Members(main));
    assert (main + added)[..|main|] == main;
  }

  /** The merged list holds exactly the main list's items and the subsidiary list's values; None is never added. */
  lemma MergeMembers<T>(main: seq<T>, sub: seq<Option<T>>)
    ensures forall x :: x in Merge(main, sub) <==> x in main || Some(x) in sub
  {
    MergeIsKeepFirst(main, sub);
    var vs := Values(sub);
    var added := Keyed.KeepFirst(vs, Keyed.Itself, Members(main));
    Keyed.KeepFirstKeys(vs, Keyed.Itself, Members(main));
    forall x
      ensures x in Merge(main, sub) <==> x in main || Some(x) in sub
    {
      assert x in added <==> Keyed.Itself(x) in Keyed.Keys(added, Keyed.Itself);
      assert x in vs <==> Keyed.Itself(x) in Keyed.Keys(vs, Keyed.Itself);
      ValuesMembers(sub, x);
    }
  }

  /** No item appears twice in a list. */
  predicate NoDuplicates<T(==)>(s: seq<T>)
  {
    forall i, j :: 0 <= i < j < |s| ==> s[i] != s[j]
  }

  /** A main list without duplicates stays without duplicates. */
  lemma MergeNoDuplicates<T>(main: seq<T>, sub: seq<Option<T>>)
    requires NoDuplicates(main)
    ensures NoDuplicates(Merge(main, sub))
  {
    MergeIsKeepFirst(main, sub);
    var added := Keyed.KeepFirst(Values(sub), Keyed.Itself, Members(main));
    Keyed.KeepFirstUnique(Values(sub), Keyed.Itself, Members(main));
    var r := main + added;
    forall i, j | 0 <= i < j < |r|
      ensures r[i] != r[j]
    {
      if j >= |main| {
        assert Keyed.Itself(added[j - |main|]) !in Members(main);
        if i >= |main| {
          assert Keyed.Itself(added[i - |main|]) != Keyed.Itself(added[j - |main|]);
        }
      }
    }
  }

  /** The appended items are the first occurrences of their values in the subsidiary list, in that order. */
  lemma MergeOrder<T>(main: seq<T>, sub: seq<Option<T>>)
    ensures |main| <= |Merge(main, sub)|
    ensures Keyed.FirstOccurrences(Values(sub), Keyed.Itself, Merge(main, sub)[|main|..])
  {
    MergeIsKeepFirst(main, sub);
    var added := Keyed.KeepFirst(Values(sub), Keyed.Itself, Members(main));
    assert Merge(main, sub)[|main|..] == added;
    Keyed.KeepFirstIsFirst(Values(sub), Keyed.Itself, Members(main));
  }

  /** A formatted function definition: its return type, its name and its parameter text. */
  datatype FuncDef = FuncDef(funcType: string, name: string, params: string)

  /**
   * The formatter's '*' rule: when the name the pattern matched holds a
   * '*', every '*' is removed from it and " *" is appended to the type.
   */
  function MoveStar(f: FuncDef): (r: FuncDef)
    ensures '*' !in r.name && r.params == f.params
    ensures '*' !in f.name ==> r == f
    ensures '*' in f.name ==> r.funcType == f.funcType + " *" && |r.name| < |f.name|
  {
    if '*' in f.name then
      var name := Text.RemoveChar(f.name, '*');
      assert |name| < |f.name| by {
        StarRemoved(f.name);
      }
      FuncDef(f.funcType + " *", name, f.params)
    else f
  }

  /** Removing a character that occurs shortens the string. */
  lemma {:induction false} StarRemoved(s: string)
    requires '*' in s
    ensures |Text.RemoveChar(s, '*')| < |s|
  {
    if s[0] != '*' {
      assert '*' in s[1..];
      StarRemoved(s[1..]);
    }
  }

  /** Applying the rule to its own result changes nothing: the type gains " *" at most once. */
  lemma MoveStarIdempotent(f: FuncDef)
    ensures MoveStar(MoveStar(f)) == MoveStar(f)
  {
  }

  /** What the three patterns found in one definition line: the return types, the names and the parameter lists. */
  datatype Matches = Matches(types: seq<string>, names: seq<string>, params: seq<string>)

  /** The Python `IndexError` a `pop()` on an empty match list raises. */
  const PopFromEmpty: string := "pop from empty list"

  /**
   * One line of the formatting loop: skipped (None) when a pattern matched
   * more than once; an error when a pattern matched nothing; otherwise the
   * single matches, with the '*' rule applied.
   */
  function FormatOne(m: Matches): Result<Option<FuncDef>, string>
  {
    if |m.names| > 1 || |m.types| > 1 || |m.params| > 1 then Ok(None)
    else if m.names == [] || m.types == [] || m.params == [] then Err(PopFromEmpty)
    else Ok(Some(MoveStar(FuncDef(m.types[0], m.names[0], m.params[0]))))
  }

  /** The formatted list, given what is already formatted and the lines left. */
  function FormatFrom(acc: seq<FuncDef>, ms: seq<Matches>): Result<seq<FuncDef>, string>
    decreases |ms|
  {
    if ms == [] then Ok(acc)
    else
      match FormatOne(ms[0])
      case Err(e) => Err(e)
      case Ok(None) => FormatFrom(acc, ms[1..])
      case Ok(Some(f)) => FormatFrom(acc + [f], ms[1..])
  }

  /** `__format_function_definitions`, once the patterns have run on every line. */
  method FormatFunctionDefinitions(ms: seq<Matches>) returns (r: Result<seq<FuncDef>, string>)
    ensures r == FormatFrom([], ms)
  {
    var formatted: seq<FuncDef> := [];
    var i := 0;
    while i < |ms|
      invariant 0 <= i <= |ms|
      invariant FormatFrom(formatted, ms[i..]) == FormatFrom([], ms)
    {
      var m := ms[i];
      assert ms[i..][1..] == ms[i + 1..];
      i := i + 1;
      if |m.names| > 1 || |m.types| > 1 || |m.params| > 1 {
        continue;
      }
      if m.names == [] || m.types == [] || m.params == [] {
        return Err(PopFromEmpty);
      }
      var funcName := m.names[0];
      var funcType := m.types[0];
      if '*' in funcName {
        funcName := Text.RemoveChar(funcName, '*');
        funcType := funcType + " *";
      }
      formatted := formatted + [FuncDef(funcType, funcName, m.params[0])];
    }
    assert ms[i..] == [];
    return Ok(formatted);
  }

  /**
   * The formatting fails exactly when some line that is not skipped has a
   * pattern with no match; when it succeeds, what was formatted before is
   * kept, at most one definition is added per line, and no name holds a '*'.
   */
  lemma {:induction false} FormatFacts(acc: seq<FuncDef>, ms: seq<Matches>)
    ensures FormatFrom(acc, ms).Ok? <==> forall k :: 0 <= k < |ms| ==> FormatOne(ms[k]).Ok?
    ensures FormatFrom(acc, ms).Ok? ==>
      var fs := FormatFrom(acc, ms).value;
      |acc| <= |fs| <= |acc| + |ms| && fs[..|acc|] == acc &&
      forall k :: |acc| <= k < |fs| ==> '*' !in fs[k].name
    decreases |ms|
  {
    if ms != [] {
      var rest := ms[1..];
      assert forall k :: 1 <= k < |ms| ==> ms[k] == rest[k - 1];
      match FormatOne(ms[0])
      case Err(e) =>
      case Ok(None) =>
        FormatFacts(acc, rest);
      case Ok(Some(f)) =>
        FormatFacts(acc + [f], rest);
        if FormatFrom(acc, ms).Ok? {
          var fs := FormatFrom(acc, ms).value;
          assert fs[..|acc| + 1][..|acc|] == fs[..|acc|];
        }
    }
  }
}
