/**
 * The helpers of the call-tree tool (call_tree_tool/helperfunctions.py):
 * the names of its log files, and the rewrite `fix_source_file` applies to
 * a C source file before cflow reads it: `#include` lines are dropped and
 * the kernel's SYSCALL_DEFINE macros are turned into plain function
 * definitions cflow can see.
 *
 * Files are sequences of lines as Python's line iteration yields them
 * (each with its newline); what is written to the output file is returned.
 */
module HelperFunctions {
  import opened Wrappers
  import Text

  /** The directory all logs go under. */
  const LogDir: string := "calltreelog"

  /** `log_file_name(folder, info)`: `<logdir>/<folder>/<info>.log`. */
  function LogFileName(folder: string, info: string): string
  {
    LogDir + "/" + folder + "/" + info + ".log"
  }

  /** The first c of a + [c] + rest is the one after a, when a holds none. */
  lemma {:induction false} FirstAfter(a: string, rest: string, c: char)
    requires c !in a
    ensures Text.IndexOfChar(a + [c] + rest, c) == |a|
  {
    if a != [] {
      assert (a + [c] + rest)[1..] == a[1..] + [c] + rest;
      FirstAfter(a[1..], rest, c);
    }
  }

  /** Distinct (folder, info) pairs name distinct files, as long as folders hold no '/'. */
  lemma LogFileNameInjective(folder1: string, info1: string, folder2: string, info2: string)
    requires '/' !in folder1 && '/' !in folder2
    requires LogFileName(folder1, info1) == LogFileName(folder2, info2)
    ensures folder1 == folder2 && info1 == info2
  {
    var t1 := folder1 + "/" + (info1 + ".log");
    var t2 := folder2 + "/" + (info2 + ".log");
    assert LogFileName(folder1, info1) == LogDir + "/" + t1;
    assert LogFileName(folder2, info2) == LogDir + "/" + t2;
    assert t1 == LogFileName(folder1, info1)[|LogDir| + 1..];
    assert t1 == t2;
    FirstAfter(folder1, info1 + ".log", '/');
    FirstAfter(folder2, info2 + ".log", '/');
    assert folder1 == t1[..|folder1|];
    assert info1 + ".log" == t1[|folder1| + 1..];
    assert info1 == (info1 + ".log")[..|info1|];
    assert info2 == (info2 + ".log")[..|info2|];
  }

  /** `shortpath.replace("/", "-")`. */
  function Flatten(path: string): (r: string)
    ensures |r| == |path| && '/' !in r
    ensures forall i :: 0 <= i < |path| ==> r[i] == if path[i] == '/' then '-' else path[i]
  {
    if path == [] then [] else [if path[0] == '/' then '-' else path[0]] + Flatten(path[1..])
  }

  /** The edge processor's log of cflow's output for a source file (call_tree_tool/edgeprocessor.py). */
  function EdgesLogFileName(shortpath: string): string
  {
    LogFileName("edges", Flatten(shortpath))
  }

  /** An edges log sits directly in `calltreelog/edges`: the slashes of the source path become '-'. */
  lemma EdgesLogFlat(shortpath: string)
    ensures var name := EdgesLogFileName(shortpath);
      Text.StartsWith(name, "calltreelog/edges/") && '/' !in name[|"calltreelog/edges/"|..]
  {
    var name := EdgesLogFileName(shortpath);
    var rest := Flatten(shortpath) + ".log";
    assert name == "calltreelog/edges/" + rest;
    assert name[|"calltreelog/edges/"|..] == rest;
  }

  /** The line every rewritten file starts with. */
  const ConfigInclude: string := "#include \"calltrees-config.h\"\n"

  /** The `compat_` prefix of a SYSCALL_DEFINE line that mentions COMPAT. */
  function Prefix(line: string): string
  {
    if Text.Contains(line, "COMPAT") then "compat_" else ""
  }

  /** A line the syscall rewrite applies to. */
  predicate SyscallLine(line: string)
  {
    Text.Contains(line, "SYSCALL_DEFINE") && !Text.Contains(line, "MAXARGS")
  }

  /**
   * What `fix_source_file` writes for one input line: nothing for an
   * `#include` line; for a SYSCALL_DEFINE line, `int [compat_]sys_<name>(`
   * and the argument text without commas, where the name and the arguments
   * come from the text between the first and the second '('; every other
   * line, and a SYSCALL_DEFINE line without '(' (whose indexing raises and
   * is caught), unchanged.
   */
  function RewriteLine(line: string): (r: Option<string>)
    ensures r.None? <==> Text.Contains(line, "#include")
    ensures !Text.Contains(line, "#include") && (!SyscallLine(line) || '(' !in line) ==> r == Some(line)
  {
    if Text.Contains(line, "#include") then None
    else if SyscallLine(line) then
      var outer := Text.Split(line, '(');
      if |outer| < 2 then Some(line)
      else
        var parts := Text.Split(outer[1], ',');
        Some("int " + Prefix(line) + "sys_" + parts[0] + "(" + Text.Concat(parts[1..]))
    else Some(line)
  }

  /** The first piece of a split is the text before the first separator. */
  lemma SplitFirst(s: string, c: char)
    ensures Text.Split(s, c)[0] == s[..Text.IndexOfChar(s, c)]
  {
  }

  lemma {:induction false} ConcatAvoids(parts: seq<string>, c: char)
    requires forall k :: 0 <= k < |parts| ==> c !in parts[k]
    ensures c !in Text.Concat(parts)
  {
    if parts != [] {
      ConcatAvoids(parts[1..], c);
    }
  }

  /** The text of a line between its first '(' and the next one (or the end of the line). */
  function Segment(line: string): string
    requires '(' in line
  {
    var rest := line[Text.IndexOfChar(line, '(') + 1..];
    rest[..Text.IndexOfChar(rest, '(')]
  }

  /**
   * A SYSCALL_DEFINE line with a '(' becomes `int `, `compat_` when it
   * mentions COMPAT, `sys_`, the macro's first argument (the segment up to
   * its first ','), '(' and the rest of the segment with its commas
   * removed; joined back with commas, name and arguments give the segment.
   */
  lemma SyscallRewrite(line: string)
    requires !Text.Contains(line, "#include") && SyscallLine(line) && '(' in line
    ensures var seg := Segment(line);
      var parts := Text.Split(seg, ',');
      var name := seg[..Text.IndexOfChar(seg, ',')];
      RewriteLine(line) == Some("int " + Prefix(line) + "sys_" + name + "(" + Text.Concat(parts[1..])) &&
      ',' !in name && ',' !in Text.Concat(parts[1..]) && Text.Join(parts, ",") == seg
  {
    var i := Text.IndexOfChar(line, '(');
    var rest := line[i + 1..];
    assert i < |line| by {
      var j :| 0 <= j < |line| && line[j] == '(';
    }
    assert Text.Split(line, '(') == [line[..i]] + Text.Split(rest, '(');
    SplitFirst(rest, '(');
    var seg := Segment(line);
    assert Text.Split(line, '(')[1] == seg;
    var parts := Text.Split(seg, ',');
    SplitFirst(seg, ',');
    ConcatAvoids(parts[1..], ',');
    Text.SplitJoin(seg, ',');
  }

  /** The lines written after the first, for the given input lines. */
  function Rewritten(lines: seq<string>): seq<string>
  {
    if lines == [] then []
    else
      var r := RewriteLine(lines[0]);
      (if r.Some? then [r.value] else []) + Rewritten(lines[1..])
  }

  /** Rewritten on the lines from i: line i's rewrite, then the rest. */
  lemma RewrittenAt(lines: seq<string>, i: nat)
    requires i < |lines|
    ensures var r := RewriteLine(lines[i]);
      Rewritten(lines[i..]) == (if r.Some? then [r.value] else []) + Rewritten(lines[i + 1..])
  {
    assert lines[i..][0] == lines[i];
    assert lines[i..][1..] == lines[i + 1..];
  }

  /** `fix_source_file`'s writes: the configuration include, then each line's rewrite, in order. */
  method FixSourceLines(lines: seq<string>) returns (out: seq<string>)
    ensures out == [ConfigInclude] + Rewritten(lines)
  {
    out := [ConfigInclude];
    var i := 0;
    while i < |lines|
      invariant 0 <= i <= |lines|
      invariant out + Rewritten(lines[i..]) == [ConfigInclude] + Rewritten(lines)
    {
      var line := lines[i];
      RewrittenAt(lines, i);
      ghost var later := Rewritten(lines[i + 1..]);
      i := i + 1;
      if Text.Contains(line, "#include") {
        continue;
      }
      if SyscallLine(line) {
        var outer := Text.Split(line, '(');
        if |outer| >= 2 {
          var parts := Text.Split(outer[1], ',');
          var fixed := "int " + Prefix(line) + "sys_" + parts[0] + "(" + Text.Concat(parts[1..]);
          assert RewriteLine(line) == Some(fixed);
          assert out + ([fixed] + later) == (out + [fixed]) + later;
          out := out + [fixed];
          continue;
        }
      }
      assert RewriteLine(line) == Some(line);
      assert out + ([line] + later) == (out + [line]) + later;
      out := out + [line];
    }
    assert lines[i..] == [];
  }

  /** The number of `#include` lines. */
  function Includes(lines: seq<string>): nat
  {
    if lines == [] then 0 else (if Text.Contains(lines[0], "#include") then 1 else 0) + Includes(lines[1..])
  }

  /** Every line but the `#include` lines gives exactly one output line. */
  lemma {:induction false} RewrittenLength(lines: seq<string>)
    ensures |Rewritten(lines)| == |lines| - Includes(lines)
  {
    if lines != [] {
      RewrittenLength(lines[1..]);
    }
  }

  /** A file with no `#include` and no SYSCALL_DEFINE line is copied unchanged and in order. */
  lemma {:induction false} RewrittenCopies(lines: seq<string>)
    requires forall k :: 0 <= k < |lines| ==> !Text.Contains(lines[k], "#include") && !Text.Contains(lines[k], "SYSCALL_DEFINE")
    ensures Rewritten(lines) == lines
  {
    if lines != [] {
      RewrittenCopies(lines[1..]);
    }
  }

  /** Rewriting distributes over concatenating files, so each line is rewritten on its own. */
  lemma {:induction false} RewrittenAppend(a: seq<string>, b: seq<string>)
    ensures Rewritten(a + b) == Rewritten(a) + Rewritten(b)
  {
    if a == [] {
      assert a + b == b;
    } else {
      assert (a + b)[1..] == a[1..] + b;
      RewrittenAppend(a[1..], b);
      var r := RewriteLine(a[0]);
      var h := if r.Some? then [r.value] else [];
      assert Rewritten(a + b) == h + Rewritten(a[1..] + b);
      assert Rewritten(a) == h + Rewritten(a[1..]);
      assert h + (Rewritten(a[1..]) + Rewritten(b)) == (h + Rewritten(a[1..])) + Rewritten(b);
    }
  }
}
