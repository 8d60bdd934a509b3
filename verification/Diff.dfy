/**
 The line-set diff of internal/web/diff.go: what the preview of pending changes shows.
 */
module Diff {
  import opened Text
  import opened Seqs

  // ---------------------------------------------------------------------
  // Lines of a text
  // ---------------------------------------------------------------------

  function TrimAll(raws: seq<string>): (lines: seq<string>)
    ensures |lines| == |raws|
  {
    seq(|raws|, i requires 0 <= i < |raws| => TrimSpace(raws[i]))
  }

  /** Every line of a text, trimmed, blank ones and repetitions included. */
  function TrimmedLines(text: string): seq<string> {
    TrimAll(Split(text, '\n'))
  }

  /** The non-blank lines of a text as a set. */
  ghost function LinesOf(text: string): set<string> {
    set line | line in TrimmedLines(text) && line != ""
  }

  /** Line by line: what is left of it without outer white space, if anything. */
  lemma LinesExactly(line: string, rest: string)
    requires '\n' !in line
    ensures LinesOf(line) == if TrimSpace(line) == "" then {} else {TrimSpace(line)}
    ensures LinesOf(line + "\n" + rest) == LinesOf(line) + LinesOf(rest)
  {
    SplitNone(line, '\n');
    SplitFirst(line, '\n', rest);
    hide Split, TrimSpace;
    assert TrimmedLines(line) == [TrimSpace(line)];
    assert TrimmedLines(line + "\n" + rest) == [TrimSpace(line)] + TrimmedLines(rest);
    hide TrimmedLines;
    LinesAre(line);
    LinesAre(rest);
    LinesAre(line + "\n" + rest);
    hide LinesOf;
    NonBlank(TrimSpace(line), TrimmedLines(rest));
  }

  lemma LinesAre(text: string)
    ensures LinesOf(text) == set line | line in TrimmedLines(text) && line != ""
  {
    hide TrimmedLines;
  }

  lemma NonBlank(line: string, lines: seq<string>)
    ensures (set l | l in [line] && l != "") == if line == "" then {} else {line}
    ensures (set l | l in [line] + lines && l != "")
         == (set l | l in [line] && l != "") + (set l | l in lines && l != "")
  {
  }

  /** Where a line first occurs, or |lines|. */
  function FirstAt(lines: seq<string>, line: string): (k: nat)
    ensures k <= |lines|
  {
    if lines == [] then 0
    else
      var front := lines[..|lines| - 1];
      var k := FirstAt(front, line);
      if k < |front| || lines[|lines| - 1] == line then k else |lines|
  }

  lemma {:induction false} FirstAtIsFirst(lines: seq<string>, line: string)
    ensures var k := FirstAt(lines, line);
            && (k < |lines| <==> line in lines)
            && (k < |lines| ==> lines[k] == line)
            && line !in lines[..k]
  {
    if lines != [] {
      var front := lines[..|lines| - 1];
      FirstAtIsFirst(front, line);
      assert lines == front + [lines[|lines| - 1]];
      var k := FirstAt(lines, line);
      if k <= |front| { assert lines[..k] == front[..k]; } else { assert lines[..k] == lines; }
    }
  }

  /** Each non-blank line once, where it first occurs. */
  function Distinct(lines: seq<string>): seq<string> {
    if lines == [] then []
    else
      var front, line := Distinct(lines[..|lines| - 1]), lines[|lines| - 1];
      if line == "" || line in front then front else front + [line]
  }

  /** In the order of first occurrence. */
  ghost predicate InSourceOrder(some: seq<string>, lines: seq<string>) {
    forall i, j :: 0 <= i < j < |some| ==> FirstAt(lines, some[i]) < FirstAt(lines, some[j])
  }

  lemma {:induction false} DistinctMembers(lines: seq<string>)
    ensures forall line :: line in Distinct(lines) <==> line in lines && line != ""
  {
    if lines != [] {
      DistinctMembers(lines[..|lines| - 1]);
      assert lines == lines[..|lines| - 1] + [lines[|lines| - 1]];
    }
  }

  lemma {:induction false} DistinctOrder(lines: seq<string>)
    ensures InSourceOrder(Distinct(lines), lines)
  {
    if lines != [] {
      var front, last := lines[..|lines| - 1], lines[|lines| - 1];
      var some := Distinct(front);
      DistinctOrder(front);
      DistinctMembers(front);
      forall i | 0 <= i < |some| ensures FirstAt(lines, some[i]) == FirstAt(front, some[i]) < |front| {
        assert some[i] in some;
        FirstAtIsFirst(front, some[i]);
      }
      FirstAtIsFirst(front, last);
    }
  }

  // ---------------------------------------------------------------------
  // The diff
  // ---------------------------------------------------------------------

  function OrderedLines(text: string): seq<string> {
    Distinct(TrimmedLines(text))
  }

  function NotAmong(lines: seq<string>): string -> bool {
    line => line !in lines
  }

  /** The lines of a text that another lacks, in the text's order. */
  function LinesMissing(text: string, other: string): seq<string> {
    Filter(OrderedLines(text), NotAmong(OrderedLines(other)))
  }

  ghost predicate NoDuplicates(lines: seq<string>) {
    forall i, j :: 0 <= i < j < |lines| ==> lines[i] != lines[j]
  }

  lemma MissingMembers(text: string, other: string)
    ensures forall line :: line in LinesMissing(text, other) <==> line in LinesOf(text) && line !in LinesOf(other)
    ensures InSourceOrder(LinesMissing(text, other), TrimmedLines(text))
    ensures NoDuplicates(LinesMissing(text, other))
  {
    DistinctMembers(TrimmedLines(text));
    DistinctMembers(TrimmedLines(other));
    DistinctOrder(TrimmedLines(text));
    FilterMembers(OrderedLines(text), NotAmong(OrderedLines(other)));
    FilterKeepsOrder(OrderedLines(text), NotAmong(OrderedLines(other)), line => FirstAt(TrimmedLines(text), line));
    hide Distinct, Filter, TrimmedLines, NotAmong;
  }

  /** computeDiff: added lines are those of the new text the old one lacks, removed ones the
      reverse. Applying the diff to the old line set gives the new one; neither list repeats
      a line; both follow their own text; and there is nothing to show exactly when the line
      sets agree. */
  method ComputeDiff(oldText: string, newText: string) returns (added: seq<string>, removed: seq<string>)
    ensures added == LinesMissing(newText, oldText) && removed == LinesMissing(oldText, newText)
    ensures LinesOf(oldText) - (set l | l in removed) + (set l | l in added) == LinesOf(newText)
    ensures NoDuplicates(added) && InSourceOrder(added, TrimmedLines(newText))
    ensures NoDuplicates(removed) && InSourceOrder(removed, TrimmedLines(oldText))
    ensures added == [] && removed == [] <==> LinesOf(oldText) == LinesOf(newText)
  {
    hide TrimmedLines, LinesOf, InSourceOrder, NoDuplicates, Distinct;
    var oldSet := LineSet(oldText);
    var newSet := LineSet(newText);
    var newLines := ListLines(newText);
    added := [];
    for i := 0 to |newLines|
      invariant added == Filter(newLines[..i], NotAmong(OrderedLines(oldText)))
    {
      FilterSnoc(newLines[..i], newLines[i], NotAmong(OrderedLines(oldText)));
      assert newLines[..i + 1] == newLines[..i] + [newLines[i]];
      if newLines[i] !in oldSet {
        added := added + [newLines[i]];
      }
    }
    assert newLines[..|newLines|] == newLines;
    var oldLines := ListLines(oldText);
    removed := [];
    for i := 0 to |oldLines|
      invariant removed == Filter(oldLines[..i], NotAmong(OrderedLines(newText)))
    {
      FilterSnoc(oldLines[..i], oldLines[i], NotAmong(OrderedLines(newText)));
      assert oldLines[..i + 1] == oldLines[..i] + [oldLines[i]];
      if oldLines[i] !in newSet {
        removed := removed + [oldLines[i]];
      }
    }
    assert oldLines[..|oldLines|] == oldLines;
    DiffApplies(oldText, newText);
  }

  lemma Nonempty(lines: seq<string>)
    ensures lines != [] ==> exists line :: line in lines
  {
    if lines != [] { assert lines[0] in lines; }
  }

  lemma DiffApplies(oldText: string, newText: string)
    ensures var added, removed := LinesMissing(newText, oldText), LinesMissing(oldText, newText);
            && LinesOf(oldText) - (set l | l in removed) + (set l | l in added) == LinesOf(newText)
            && NoDuplicates(added) && InSourceOrder(added, TrimmedLines(newText))
            && NoDuplicates(removed) && InSourceOrder(removed, TrimmedLines(oldText))
            && (added == [] && removed == [] <==> LinesOf(oldText) == LinesOf(newText))
  {
    MissingMembers(newText, oldText);
    MissingMembers(oldText, newText);
    hide LinesMissing, LinesOf, InSourceOrder, NoDuplicates;
    var added, removed := LinesMissing(newText, oldText), LinesMissing(oldText, newText);
    Nonempty(added);
    Nonempty(removed);
    if added == [] && removed == [] {
      forall l ensures l in LinesOf(oldText) <==> l in LinesOf(newText) {
        assert l !in added && l !in removed;
      }
    }
  }

  method LineSet(text: string) returns (lines: set<string>)
    ensures forall l :: l in lines <==> l in OrderedLines(text)
    ensures lines == LinesOf(text)
  {
    var ordered := ListLines(text);
    lines := {};
    for i := 0 to |ordered|
      invariant forall l :: l in lines <==> l in ordered[..i]
    {
      assert ordered[..i + 1] == ordered[..i] + [ordered[i]];
      lines := lines + {ordered[i]};
    }
    assert ordered[..|ordered|] == ordered;
    DistinctMembers(TrimmedLines(text));
  }

  method ListLines(text: string) returns (out: seq<string>)
    ensures out == OrderedLines(text)
  {
    var raws := Split(text, '\n');
    ghost var lines := TrimmedLines(text);
    var seen: set<string> := {};
    out := [];
    for i := 0 to |raws|
      invariant out == Distinct(lines[..i])
      invariant forall l :: l in seen <==> l in out
    {
      assert lines[..i + 1][..i] == lines[..i];
      var line := TrimSpace(raws[i]);
      if line != "" && line !in seen {
        seen := seen + {line};
        out := out + [line];
      }
    }
    assert lines[..|raws|] == lines;
  }
}
