/**
 * The MAINTAINERS scanner of the indexer (ks-nav/kern_bin_db/maintainers.go):
 * `seek2data` finds where the subsystem entries start, and
 * `parse_maintainers` folds the lines from there into (subsystem name,
 * file wildcards) items with a two-state machine.
 *
 * Go's `len` counts bytes; the ASCII prefixes compared here (`..`, `F:`)
 * are one byte per character, so comparing their characters is comparing
 * their bytes, and the length tests use the UTF-8 length `Text.ByteLen`.
 */
module Maintainers {
  import Text

  /** The catch-all entry, which is never emitted. */
  const TheRest: string := "THE REST"

  /** `m_item`: a subsystem name and the `F:` wildcards of its entry. */
  datatype MItem = MItem(subsystemName: string, wildcards: seq<string>)

  /** A line whose first two bytes are "..". */
  predicate DotDot(line: string)
  {
    |line| >= 2 && line[..2] == ".."
  }

  /** Line e is empty and some earlier line starts with "..": the scan may stop there. */
  predicate ClosesHeader(s: seq<string>, e: int)
    requires 0 <= e < |s|
  {
    s[e] == "" && exists d :: 0 <= d < e && DotDot(s[d])
  }

  /**
   * `seek2data`: one past the first empty line that follows a line starting
   * with "..", or 0 when there is no such empty line.
   */
  method Seek2Data(s: seq<string>) returns (res: int)
    ensures 0 <= res <= |s|
    ensures res > 0 ==> ClosesHeader(s, res - 1) && forall e :: 0 <= e < res - 1 ==> !ClosesHeader(s, e)
    ensures res == 0 ==> forall e :: 0 <= e < |s| ==> !ClosesHeader(s, e)
  {
    var state := 0;
    var i := 0;
    res := 0;
    while i < |s|
      invariant 0 <= i <= |s|
      invariant state == 0 || state == 1
      invariant state == 1 <==> exists d :: 0 <= d < i && DotDot(s[d])
      invariant forall e :: 0 <= e < i ==> !ClosesHeader(s, e)
    {
      var line := s[i];
      if Text.ByteLen(line) >= 2 && DotDot(line) {
        state := 1;
      }
      if state == 1 && line == "" {
        state := 2;
        break;
      }
      i := i + 1;
    }
    if state == 2 {
      res := i + 1;
    } else {
      forall e | 0 <= e < |s|
        ensures !ClosesHeader(s, e)
      {
      }
    }
  }

  /** The scanner's variables: the state (0 before a name, 1 inside an entry), the item being built, the items emitted. */
  datatype ParseState = ParseState(state: int, it: MItem, res: seq<MItem>)

  const Start: ParseState := ParseState(0, MItem("", []), [])

  /** A `F:` line: more than two bytes, the first two "F:". */
  predicate FileLine(line: string)
  {
    Text.ByteLen(line) > 2 && |line| >= 2 && line[..2] == "F:"
  }

  /** The wildcard of a `F:` line: the text between its first and second ':', blanks trimmed on the left. */
  function Wildcard(line: string): (w: string)
    requires |line| >= 2 && line[..2] == "F:"
    ensures ':' !in w && (w == [] || (w[0] != ' ' && w[0] != '\t'))
  {
    assert line[0] == 'F' && line[1] == ':';
    var parts := Text.Split(line, ':');
    assert parts == [line[..1]] + Text.Split(line[2..], ':');
    Text.TrimLeftBlank(parts[1])
  }

  /** One iteration of the loop of parse_maintainers. */
  function Step(st: ParseState, line: string): ParseState
  {
    if st.state == 0 then st.(it := st.it.(subsystemName := line), state := 1)
    else if st.state == 1 && FileLine(line) then st.(it := st.it.(wildcards := st.it.wildcards + [Wildcard(line)]))
    else if Text.ByteLen(line) < 2 then
      if st.it.subsystemName != TheRest then ParseState(0, MItem("", []), st.res + [st.it])
      else st.(state := 0)
    else st
  }

  /** The scanner's variables after the first |lines| lines. */
  function Fold(lines: seq<string>): ParseState
  {
    if lines == [] then Start else Step(Fold(lines[..|lines| - 1]), lines[|lines| - 1])
  }

  /** What parse_maintainers returns. */
  function MaintainersOf(lines: seq<string>): seq<MItem>
  {
    Fold(lines).res
  }

  /** `parse_maintainers`: the items of the entries closed by a short line, in input order. */
  method ParseMaintainers(lines: seq<string>) returns (res: seq<MItem>)
    ensures res == MaintainersOf(lines)
  {
    var it := MItem("", []);
    var state := 0;
    res := [];
    var i := 0;
    while i < |lines|
      invariant 0 <= i <= |lines|
      invariant ParseState(state, it, res) == Fold(lines[..i])
    {
      var line := lines[i];
      assert lines[..i + 1][..i] == lines[..i];
      i := i + 1;
      if state == 0 {
        it := it.(subsystemName := line);
        state := 1;
        continue;
      }
      if state == 1 && FileLine(line) {
        it := it.(wildcards := it.wildcards + [Wildcard(line)]);
        continue;
      }
      if Text.ByteLen(line) < 2 {
        if it.subsystemName != TheRest {
          res := res + [it];
          it := it.(subsystemName := "");
          it := it.(wildcards := []);
        }
        state := 0;
      }
    }
    assert lines[..i] == lines;
  }

  /** A wildcard as `F:` lines leave it: colon-free, with no leading blank. */
  predicate TrimmedWildcard(w: string)
  {
    ':' !in w && (w == [] || (w[0] != ' ' && w[0] != '\t'))
  }

  predicate TidyItem(it: MItem)
  {
    forall w :: w in it.wildcards ==> TrimmedWildcard(w)
  }

  /** What the scanner keeps true: states 0 and 1 only, no "THE REST" emitted, every wildcard trimmed and colon-free. */
  predicate Tidy(st: ParseState)
  {
    (st.state == 0 || st.state == 1) && TidyItem(st.it) &&
    forall k :: 0 <= k < |st.res| ==> st.res[k].subsystemName != TheRest && TidyItem(st.res[k])
  }

  lemma {:induction false} FoldTidy(lines: seq<string>)
    ensures Tidy(Fold(lines))
  {
    if lines != [] {
      FoldTidy(lines[..|lines| - 1]);
      StepTidy(Fold(lines[..|lines| - 1]), lines[|lines| - 1]);
    }
  }

  lemma StepTidy(st: ParseState, line: string)
    requires Tidy(st)
    ensures Tidy(Step(st, line))
  {
    var next := Step(st, line);
    if st.state == 0 {
      assert next.it.wildcards == st.it.wildcards && next.res == st.res;
    } else if st.state == 1 && FileLine(line) {
      var w := Wildcard(line);
      assert TrimmedWildcard(w);
      assert next.it.wildcards == st.it.wildcards + [w] && next.res == st.res;
    } else if Text.ByteLen(line) < 2 && st.it.subsystemName != TheRest {
      assert next.res == st.res + [st.it] && next.it.wildcards == [];
      forall k | 0 <= k < |next.res|
        ensures next.res[k].subsystemName != TheRest && TidyItem(next.res[k])
      {
        if k < |st.res| {
          assert next.res[k] == st.res[k];
        }
      }
    }
  }

  /** No emitted item is the "THE REST" entry, and every wildcard has its leading blanks trimmed. */
  lemma MaintainersTidy(lines: seq<string>)
    ensures forall k :: 0 <= k < |MaintainersOf(lines)| ==> MaintainersOf(lines)[k].subsystemName != TheRest
    ensures forall k, w :: 0 <= k < |MaintainersOf(lines)| && w in MaintainersOf(lines)[k].wildcards ==>
      ':' !in w && (w == [] || (w[0] != ' ' && w[0] != '\t'))
  {
    FoldTidy(lines);
    var res := MaintainersOf(lines);
    forall k, w | 0 <= k < |res| && w in res[k].wildcards
      ensures ':' !in w && (w == [] || (w[0] != ' ' && w[0] != '\t'))
    {
      assert TidyItem(res[k]);
      assert TrimmedWildcard(w);
    }
  }

  /** Items are only ever appended: the items of a prefix of the file start the items of the file. */
  lemma {:induction false} MaintainersPrefix(lines: seq<string>, more: seq<string>)
    ensures MaintainersOf(lines) <= MaintainersOf(lines + more)
    decreases |more|
  {
    if more != [] {
      var init := more[..|more| - 1];
      var last := more[|more| - 1];
      assert more == init + [last];
      assert lines + more == (lines + init) + [last];
      MaintainersPrefix(lines, init);
      FoldSnoc(lines + init, last, lines + more);
      var st := Fold(lines + init);
      assert MaintainersOf(lines + init) == st.res <= Step(st, last).res;
    } else {
      assert lines + more == lines;
    }
  }

  /** A line of two bytes or more never emits an item, so a final entry without a short line after it is lost. */
  lemma {:induction false} LongLinesEmitNothing(lines: seq<string>, more: seq<string>)
    requires forall k :: 0 <= k < |more| ==> Text.ByteLen(more[k]) >= 2
    ensures MaintainersOf(lines + more) == MaintainersOf(lines)
    decreases |more|
  {
    if more != [] {
      var init := more[..|more| - 1];
      var last := more[|more| - 1];
      assert more == init + [last];
      assert lines + more == (lines + init) + [last];
      LongLinesInit(more, init, last);
      LongLinesEmitNothing(lines, init);
      FoldSnoc(lines + init, last, lines + more);
      StepLong(Fold(lines + init), last);
    } else {
      assert lines + more == lines;
    }
  }

  lemma LongLinesInit(more: seq<string>, init: seq<string>, last: string)
    requires more == init + [last]
    requires forall k :: 0 <= k < |more| ==> Text.ByteLen(more[k]) >= 2
    ensures forall k :: 0 <= k < |init| ==> Text.ByteLen(init[k]) >= 2
    ensures Text.ByteLen(last) >= 2
  {
    forall k | 0 <= k < |init|
      ensures Text.ByteLen(init[k]) >= 2
    {
      assert init[k] == more[k];
    }
    assert last == more[|more| - 1];
  }

  /** The scan of a file is the scan of all but its last line, then one step. */
  lemma FoldSnoc(init: seq<string>, last: string, all: seq<string>)
    requires all == init + [last]
    ensures Fold(all) == Step(Fold(init), last)
  {
    assert all[..|all| - 1] == init;
  }

  lemma StepLong(st: ParseState, line: string)
    requires Text.ByteLen(line) >= 2
    ensures Step(st, line).res == st.res
  {
  }

  lemma ShortNotFileLine(line: string)
    requires Text.ByteLen(line) < 2
    ensures !FileLine(line)
  {
  }

  /**
   * A short line closing an entry emits it unless it is "THE REST"; that
   * entry's wildcards are kept and carried into the next entry.
   */
  lemma CloseEntry(lines: seq<string>, short: string, name: string)
    requires Fold(lines).state == 1 && Text.ByteLen(short) < 2
    ensures var st := Fold(lines);
      var after := Fold(lines + [short, name]);
      (st.it.subsystemName != TheRest ==>
        MaintainersOf(lines + [short]) == MaintainersOf(lines) + [st.it] && after.it == MItem(name, [])) &&
      (st.it.subsystemName == TheRest ==>
        MaintainersOf(lines + [short]) == MaintainersOf(lines) && after.it == MItem(name, st.it.wildcards)) &&
      after.state == 1
  {
    ShortNotFileLine(short);
    assert (lines + [short, name])[..|lines| + 1] == lines + [short];
  }
}
