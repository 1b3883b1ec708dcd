/**
 * The cflow reader of the call-tree tool (call_tree_tool/edgeprocessor.py):
 * each line of cflow's output names a function, indented four spaces per
 * call level; the processor keeps the chain of enclosing callers as a stack
 * and reports one caller-to-callee edge per indented line.
 *
 * The database is outside the model: `get_function_by_name` is the
 * parameter `lookup`, which answers the path of the first record of a
 * name, or None when there is no record, and the edges handed to
 * `add_edge` are kept, in order, in the field `edges`.
 */
module EdgeProcessing {
  import opened Wrappers
  import Text

  /** The indentation step of cflow's output. */
  const Indentation: int := 4

  /** A function as the processor names it: (path, name). */
  datatype FuncData = FuncData(path: string, name: string)

  /** An edge handed to add_edge: caller, then callee. */
  datatype Edge = Edge(parent: FuncData, child: FuncData)

  type Lookup = string -> Option<string>

  /** Python's `str.isspace`, the separators of `str.split()` without arguments. */
  predicate PySpace(c: char)
  {
    c == ' ' || '\t' <= c <= '\r' || '\U{1c}' <= c <= '\U{1f}' || c == '\U{85}' || c == '\U{a0}' ||
    c == '\U{1680}' || '\U{2000}' <= c <= '\U{200a}' || c == '\U{2028}' || c == '\U{2029}' ||
    c == '\U{202f}' || c == '\U{205f}' || c == '\U{3000}'
  }

  /** The number of spaces a line starts with: `len(line) - len(line.lstrip(' '))`. */
  function LeadingSpaces(line: string): (n: nat)
    ensures n <= |line| && forall k :: 0 <= k < n ==> line[k] == ' '
    ensures n < |line| ==> line[n] != ' '
  {
    if line == [] || line[0] != ' ' then 0 else 1 + LeadingSpaces(line[1..])
  }

  /** The characters up to the first separator. */
  function WordPrefix(s: string): (w: string)
    ensures |w| <= |s| && w == s[..|w|]
    ensures forall k :: 0 <= k < |w| ==> !PySpace(w[k])
    ensures |w| < |s| ==> PySpace(s[|w|])
  {
    if s == [] || PySpace(s[0]) then [] else [s[0]] + WordPrefix(s[1..])
  }

  /** `line.split()[0]`, or None where the split is empty and indexing it raises. */
  function FirstWord(line: string): (w: Option<string>)
    ensures w.Some? <==> exists k :: 0 <= k < |line| && !PySpace(line[k])
    ensures w.Some? ==> |w.value| > 0 && forall k :: 0 <= k < |w.value| ==> !PySpace(w.value[k])
  {
    if line == [] then None
    else if PySpace(line[0]) then
      var w := FirstWord(line[1..]);
      assert (exists k :: 0 <= k < |line| && !PySpace(line[k])) <==> exists k :: 0 <= k < |line[1..]| && !PySpace(line[1..][k]) by {
        forall k | 0 < k < |line| ensures line[k] == line[1..][k - 1] {
        }
      }
      w
    else Some(WordPrefix(line))
  }

  /** The name a word stands for: a trailing "()" marks a function and is dropped; macro names have none. */
  function FuncName(word: string): (name: string)
    ensures Text.EndsWith(word, "()") ==> name + "()" == word
    ensures !Text.EndsWith(word, "()") ==> name == word
  {
    if Text.EndsWith(word, "()") then word[..|word| - 2] else word
  }

  /** The (path, name) pair of a name: the path of its first record, or "unknown". */
  function FuncDataOf(name: string, lookup: Lookup): FuncData
  {
    var rec := lookup(name);
    FuncData(if rec.None? then "unknown" else rec.value, name)
  }

  /** The processor's variables: the caller stack, the current indentation, and the edges emitted. */
  datatype EdgeState = EdgeState(stack: seq<FuncData>, indent: int, edges: seq<Edge>)

  /**
   * `process_sibling`: at indentation above 0 the line replaces the top of
   * the stack and is called by the entry under it; at 0 it is pushed with
   * no edge. None where Python would pop or index an empty list.
   */
  function Sibling(st: EdgeState, fd: FuncData): (r: Option<EdgeState>)
    ensures r.Some? <==> st.indent <= 0 || |st.stack| >= 2
    ensures r.Some? ==> |r.value.stack| > 0 && r.value.stack[|r.value.stack| - 1] == fd && r.value.indent == st.indent
    ensures r.Some? && st.indent > 0 ==>
      r.value.stack[..|r.value.stack| - 1] == st.stack[..|st.stack| - 1] &&
      r.value.edges == st.edges + [Edge(st.stack[|st.stack| - 2], fd)]
    ensures r.Some? && st.indent <= 0 ==> r.value.stack[..|r.value.stack| - 1] == st.stack && r.value.edges == st.edges
  {
    if st.indent > 0 then
      if |st.stack| < 2 then None
      else
        var s := st.stack[..|st.stack| - 1];
        assert (s + [fd])[..|s|] == s;
        Some(EdgeState(s + [fd], st.indent, st.edges + [Edge(s[|s| - 1], fd)]))
    else
      assert (st.stack + [fd])[..|st.stack|] == st.stack;
      Some(st.(stack := st.stack + [fd]))
  }

  /** `process_child`: the line is called by the top of the stack, is pushed, and the indentation grows by one step. */
  function Child(st: EdgeState, fd: FuncData): (r: Option<EdgeState>)
    ensures r.Some? <==> |st.stack| > 0
    ensures r.Some? ==> |r.value.stack| == |st.stack| + 1 && r.value.stack[..|st.stack|] == st.stack && r.value.stack[|st.stack|] == fd
    ensures r.Some? ==> r.value.indent == st.indent + Indentation
    ensures r.Some? ==> r.value.edges == st.edges + [Edge(st.stack[|st.stack| - 1], fd)]
  {
    if st.stack == [] then None
    else
      assert (st.stack + [fd])[..|st.stack|] == st.stack;
      Some(EdgeState(st.stack + [fd], st.indent + Indentation, st.edges + [Edge(st.stack[|st.stack| - 1], fd)]))
  }

  /** `len(range(indentation, current, 4))`. */
  function PopCount(indentation: int, current: int): (n: nat)
    ensures indentation + Indentation * (n - 1) < current <= indentation + Indentation * n || (n == 0 && current <= indentation)
  {
    if indentation < current then (current - indentation + 3) / 4 else 0
  }

  /**
   * `process_parent`: pops the top and one entry per step of the range
   * from the line's indentation up to the current one; above indentation 0
   * the line is called by the entry then on top. The line is pushed and its
   * indentation becomes the current one.
   */
  function Parent(st: EdgeState, fd: FuncData, indentation: int): (r: Option<EdgeState>)
    ensures var n := 1 + PopCount(indentation, st.indent);
      r.Some? <==> |st.stack| >= n + (if indentation > 0 then 1 else 0)
    ensures var n := 1 + PopCount(indentation, st.indent);
      r.Some? ==> |st.stack| >= n && r.value.stack == st.stack[..|st.stack| - n] + [fd] && r.value.indent == indentation
    ensures var n := 1 + PopCount(indentation, st.indent);
      r.Some? ==> r.value.edges == st.edges + if indentation > 0 then [Edge(st.stack[|st.stack| - n - 1], fd)] else []
  {
    var n := 1 + PopCount(indentation, st.indent);
    if |st.stack| < n then None
    else
      var s := st.stack[..|st.stack| - n];
      if indentation > 0 then
        if s == [] then None else Some(EdgeState(s + [fd], indentation, st.edges + [Edge(s[|s| - 1], fd)]))
      else Some(EdgeState(s + [fd], indentation, st.edges))
  }

  /** `process_line`: None where the line has no word or the stack runs out. */
  function LineStep(st: EdgeState, line: string, lookup: Lookup): Option<EdgeState>
  {
    var word := FirstWord(line);
    if word.None? then None
    else
      var fd := FuncDataOf(FuncName(word.value), lookup);
      var indentation := LeadingSpaces(line);
      if indentation > st.indent then Child(st, fd)
      else if indentation < st.indent then Parent(st, fd, indentation)
      else Sibling(st, fd)
  }

  /** The loop of process_file over cflow's lines from st on; None where a line raises. */
  function Run(st: EdgeState, lines: seq<string>, lookup: Lookup): Option<EdgeState>
    decreases |lines|
  {
    if lines == [] then Some(st)
    else
      var next := LineStep(st, lines[0], lookup);
      if next.None? then None else Run(next.value, lines[1..], lookup)
  }

  /** `stdout.split('\n')[:-1]`: the lines of cflow's output, the piece after the last newline dropped. */
  function CflowLines(stdout: string): seq<string>
  {
    var parts := Text.Split(stdout, '\n');
    parts[..|parts| - 1]
  }

  /**
   * The lines hold no newline, and each of them followed by a newline,
   * then the dropped piece, is the whole output: only the text after the
   * last newline (empty when the output ends with one) is not processed.
   */
  lemma CflowLinesCover(stdout: string)
    ensures forall k :: 0 <= k < |CflowLines(stdout)| ==> '\n' !in CflowLines(stdout)[k]
    ensures var parts := Text.Split(stdout, '\n');
      stdout == Text.Terminated(CflowLines(stdout), "\n") + parts[|parts| - 1] && '\n' !in parts[|parts| - 1]
  {
    var parts := Text.Split(stdout, '\n');
    var lines := CflowLines(stdout);
    var last := parts[|parts| - 1];
    assert lines == parts[..|parts| - 1];
    forall k | 0 <= k < |lines|
      ensures '\n' !in lines[k]
    {
      assert lines[k] == parts[k];
    }
    Text.SplitJoin(stdout, '\n');
    assert parts == lines + [last];
    assert stdout == Text.Join(lines + [last], "\n");
    Text.JoinSnoc(lines, last, "\n");
    if lines != [] {
      Text.TerminatedJoin(lines, "\n");
      assert stdout == (Text.Join(lines, "\n") + "\n") + last;
    } else {
      assert Text.Terminated(lines, "\n") == "";
    }
  }

  class EdgeProcessor {
    var currentFunction: seq<FuncData>
    var currentIndent: int
    /** The edges handed to the database's `add_edge`, in order. */
    var edges: seq<Edge>
    /** The database's `get_function_by_name`. */
    const lookup: Lookup

    function State(): EdgeState
      reads this
    {
      EdgeState(currentFunction, currentIndent, edges)
    }

    constructor(lookup: Lookup)
      ensures State() == EdgeState([], 0, []) && this.lookup == lookup
    {
      currentFunction := [];
      currentIndent := 0;
      edges := [];
      this.lookup := lookup;
    }

    method ProcessSibling(funcdata: FuncData)
      requires Sibling(State(), funcdata).Some?
      modifies this
      ensures State() == Sibling(old(State()), funcdata).value
    {
      if currentIndent > 0 {
        currentFunction := currentFunction[..|currentFunction| - 1];
        var parent := currentFunction[|currentFunction| - 1];
        edges := edges + [Edge(parent, funcdata)];
      }
      currentFunction := currentFunction + [funcdata];
    }

    method ProcessChild(funcdata: FuncData)
      requires Child(State(), funcdata).Some?
      modifies this
      ensures State() == Child(old(State()), funcdata).value
    {
      var parent := currentFunction[|currentFunction| - 1];
      edges := edges + [Edge(parent, funcdata)];
      currentFunction := currentFunction + [funcdata];
      currentIndent := currentIndent + Indentation;
    }

    method ProcessParent(funcdata: FuncData, indentation: int)
      requires Parent(State(), funcdata, indentation).Some?
      modifies this
      ensures State() == Parent(old(State()), funcdata, indentation).value
    {
      ghost var s0 := currentFunction;
      ghost var n := PopCount(indentation, currentIndent);
      currentFunction := currentFunction[..|currentFunction| - 1];
      var i := indentation;
      ghost var k := 0;
      while i < currentIndent
        invariant 0 <= k <= n && i == indentation + Indentation * k
        invariant currentFunction == s0[..|s0| - 1 - k]
        invariant currentIndent == old(currentIndent) && edges == old(edges)
        decreases currentIndent - i
      {
        currentFunction := currentFunction[..|currentFunction| - 1];
        i := i + Indentation;
        k := k + 1;
      }
      if indentation > 0 {
        var parent := currentFunction[|currentFunction| - 1];
        edges := edges + [Edge(parent, funcdata)];
      }
      currentFunction := currentFunction + [funcdata];
      currentIndent := indentation;
    }

    method ProcessLine(line: string)
      requires LineStep(State(), line, lookup).Some?
      modifies this
      ensures State() == LineStep(old(State()), line, lookup).value
    {
      var indentation := LeadingSpaces(line);
      var funcname := FirstWord(line).value;
      if Text.EndsWith(funcname, "()") {
        funcname := funcname[..|funcname| - 2];
      }
      var funcrecord := lookup(funcname);
      var funcdata := if funcrecord.None? then FuncData("unknown", funcname) else FuncData(funcrecord.value, funcname);
      if indentation > currentIndent {
        ProcessChild(funcdata);
        return;
      }
      if indentation < currentIndent {
        ProcessParent(funcdata, indentation);
        return;
      }
      if indentation == currentIndent {
        ProcessSibling(funcdata);
        return;
      }
    }

    /** The end of `process_file`: the stack and indentation reset, then every line of cflow's output in turn. */
    method ProcessLines(lines: seq<string>)
      requires Run(EdgeState([], 0, edges), lines, lookup).Some?
      modifies this
      ensures State() == Run(EdgeState([], 0, old(edges)), lines, lookup).value
    {
      currentFunction := [];
      currentIndent := 0;
      var i := 0;
      while i < |lines|
        invariant 0 <= i <= |lines|
        invariant Run(State(), lines[i..], lookup) == Run(EdgeState([], 0, old(edges)), lines, lookup)
      {
        assert lines[i..][1..] == lines[i + 1..];
        ProcessLine(lines[i]);
        i := i + 1;
      }
    }

    /** The part of `process_file` after cflow has run: its standard output, split into lines and processed. */
    method ProcessOutput(stdout: string)
      requires Run(EdgeState([], 0, edges), CflowLines(stdout), lookup).Some?
      modifies this
      ensures State() == Run(EdgeState([], 0, old(edges)), CflowLines(stdout), lookup).value
    {
      var parts := Text.Split(stdout, '\n');
      var lines := parts[..|parts| - 1];
      ProcessLines(lines);
    }
  }

  /** After a line, the top of the stack is that line's function. */
  lemma LineStepTop(st: EdgeState, line: string, lookup: Lookup)
    requires LineStep(st, line, lookup).Some?
    ensures var s := LineStep(st, line, lookup).value.stack;
      |s| > 0 && s[|s| - 1] == FuncDataOf(FuncName(FirstWord(line).value), lookup)
  {
  }

  /**
   * From a non-negative indentation, a line adds exactly one edge, ending
   * at its own function, when it is indented, and none otherwise; the
   * indentation stays non-negative and earlier edges are kept.
   */
  lemma LineStepEdges(st: EdgeState, line: string, lookup: Lookup)
    requires st.indent >= 0 && LineStep(st, line, lookup).Some?
    ensures var r := LineStep(st, line, lookup).value;
      r.indent >= 0 && r.edges[..|st.edges|] == st.edges &&
      |r.edges| == |st.edges| + (if LeadingSpaces(line) > 0 then 1 else 0)
    ensures var r := LineStep(st, line, lookup).value;
      LeadingSpaces(line) > 0 ==> r.edges[|st.edges|].child == FuncDataOf(FuncName(FirstWord(line).value), lookup)
  {
    var r := LineStep(st, line, lookup).value;
    var fd := FuncDataOf(FuncName(FirstWord(line).value), lookup);
    if LeadingSpaces(line) > 0 {
      assert r.edges == st.edges + [r.edges[|st.edges|]];
    } else {
      assert r.edges == st.edges;
    }
  }

  /** The number of indented lines. */
  function IndentedLines(lines: seq<string>): nat
  {
    if lines == [] then 0 else (if LeadingSpaces(lines[0]) > 0 then 1 else 0) + IndentedLines(lines[1..])
  }

  /** A run over a file's lines adds one edge per indented line and keeps the edges already there. */
  lemma {:induction false} RunEdges(st: EdgeState, lines: seq<string>, lookup: Lookup)
    requires st.indent >= 0 && Run(st, lines, lookup).Some?
    ensures var r := Run(st, lines, lookup).value;
      |r.edges| == |st.edges| + IndentedLines(lines) && r.edges[..|st.edges|] == st.edges
    decreases |lines|
  {
    if lines != [] {
      var next := LineStep(st, lines[0], lookup).value;
      LineStepEdges(st, lines[0], lookup);
      RunEdges(next, lines[1..], lookup);
      var r := Run(st, lines, lookup).value;
      assert r.edges[..|next.edges|] == next.edges;
      assert r.edges[..|st.edges|] == r.edges[..|next.edges|][..|st.edges|];
    }
  }

  /**
   * A small call tree: lines at indentations 0, 4, 8 and 4 naming a, b, c
   * and d. a calls b and d, b calls c; the line going back out to d pops b
   * and c, and d is called by a.
   */
  lemma SmallTree(lookup: Lookup, lines: seq<string>, a: string, b: string, c: string, d: string)
    requires |lines| == 4
    requires FirstWord(lines[0]) == Some(a + "()") && LeadingSpaces(lines[0]) == 0
    requires FirstWord(lines[1]) == Some(b + "()") && LeadingSpaces(lines[1]) == 4
    requires FirstWord(lines[2]) == Some(c + "()") && LeadingSpaces(lines[2]) == 8
    requires FirstWord(lines[3]) == Some(d + "()") && LeadingSpaces(lines[3]) == 4
    ensures var fa, fb, fc, fd := FuncDataOf(a, lookup), FuncDataOf(b, lookup), FuncDataOf(c, lookup), FuncDataOf(d, lookup);
      Run(EdgeState([], 0, []), lines, lookup) == Some(EdgeState([fa, fd], 4, [Edge(fa, fb), Edge(fb, fc), Edge(fa, fd)]))
  {
    var fa, fb, fc, fd := FuncDataOf(a, lookup), FuncDataOf(b, lookup), FuncDataOf(c, lookup), FuncDataOf(d, lookup);
    var s0 := EdgeState([], 0, []);
    var s1 := EdgeState([fa], 0, []);
    var s2 := EdgeState([fa, fb], 4, [Edge(fa, fb)]);
    var s3 := EdgeState([fa, fb, fc], 8, [Edge(fa, fb), Edge(fb, fc)]);
    var s4 := EdgeState([fa, fd], 4, [Edge(fa, fb), Edge(fb, fc), Edge(fa, fd)]);
    TreeDown(lookup, lines[0], lines[1], a, b);
    TreeOut(lookup, s2, lines[2], lines[3], c, d);
    assert s2.stack + [fc] == s3.stack && s2.edges + [Edge(fb, fc)] == s3.edges;
    assert s3.edges + [Edge(fa, fd)] == s4.edges;
    RunFour([s0, s1, s2, s3, s4], lines, lookup);
  }

  /** The first two lines of SmallTree: the root, then its first callee. */
  lemma TreeDown(lookup: Lookup, l0: string, l1: string, a: string, b: string)
    requires FirstWord(l0) == Some(a + "()") && LeadingSpaces(l0) == 0
    requires FirstWord(l1) == Some(b + "()") && LeadingSpaces(l1) == 4
    ensures var fa, fb := FuncDataOf(a, lookup), FuncDataOf(b, lookup);
      LineStep(EdgeState([], 0, []), l0, lookup) == Some(EdgeState([fa], 0, [])) &&
      LineStep(EdgeState([fa], 0, []), l1, lookup) == Some(EdgeState([fa, fb], 4, [Edge(fa, fb)]))
  {
    var fa, fb := FuncDataOf(a, lookup), FuncDataOf(b, lookup);
    CalledName(a);
    CalledName(b);
    assert [] + [fa] == [fa];
    assert [fa] + [fb] == [fa, fb];
    assert [] + [Edge(fa, fb)] == [Edge(fa, fb)];
  }

  /** The last two lines of SmallTree: one level further in, then back out to the root's level. */
  lemma TreeOut(lookup: Lookup, s2: EdgeState, l2: string, l3: string, c: string, d: string)
    requires |s2.stack| == 2 && s2.indent == 4
    requires FirstWord(l2) == Some(c + "()") && LeadingSpaces(l2) == 8
    requires FirstWord(l3) == Some(d + "()") && LeadingSpaces(l3) == 4
    ensures var fc, fd := FuncDataOf(c, lookup), FuncDataOf(d, lookup);
      var s3 := EdgeState(s2.stack + [fc], 8, s2.edges + [Edge(s2.stack[1], fc)]);
      LineStep(s2, l2, lookup) == Some(s3) &&
      LineStep(s3, l3, lookup) == Some(EdgeState([s2.stack[0], fd], 4, s3.edges + [Edge(s2.stack[0], fd)]))
  {
    var fc, fd := FuncDataOf(c, lookup), FuncDataOf(d, lookup);
    CalledName(c);
    CalledName(d);
    assert PopCount(4, 8) == 1;
    assert (s2.stack + [fc])[..1] + [fd] == [s2.stack[0], fd];
  }

  lemma CalledName(name: string)
    ensures FuncName(name + "()") == name
  {
    assert (name + "()")[|name + "()"| - 2..] == "()";
    assert (name + "()")[..|name|] == name;
  }

  /** Four lines, each taking one state to the next, take the first state to the last. */
  lemma RunFour(states: seq<EdgeState>, lines: seq<string>, lookup: Lookup)
    requires |states| == 5 && |lines| == 4
    requires forall k :: 0 <= k < 4 ==> LineStep(states[k], lines[k], lookup) == Some(states[k + 1])
    ensures Run(states[0], lines, lookup) == Some(states[4])
  {
    RunStep(states[3], lines[3..], states[4], lookup);
    RunStep(states[2], lines[2..], states[3], lookup);
    RunStep(states[1], lines[1..], states[2], lookup);
    RunStep(states[0], lines, states[1], lookup);
  }

  lemma RunStep(st: EdgeState, lines: seq<string>, next: EdgeState, lookup: Lookup)
    requires lines != [] && LineStep(st, lines[0], lookup) == Some(next)
    ensures Run(st, lines, lookup) == Run(next, lines[1..], lookup)
  {
  }
}
