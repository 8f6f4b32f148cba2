/** The block scanners of minihtml.go. Each starts at a line index, walks
    forward over `lines` and returns where it stopped; findNextList and
    findNextCode also return the HTML they built for the lines they took.
    Each scanner is a method with a loop, proved equal to a recursive
    specification function whose contract says which lines are taken. */
module Scan {
  import opened Text
  import opened Classify

  /** What findNextParagraph returns from `i`: the first index at or after
      `i` holding an empty line (or the end of `lines`), and whether some
      line on the way has text. */
  function NextParagraph(lines: seq<string>, i: nat): (r: (nat, bool))
    ensures i > |lines| ==> r == (i, false)
    ensures i <= |lines| ==> i <= r.0 <= |lines|
    ensures r.0 < |lines| ==> lines[r.0] == ""
    ensures forall k :: i <= k < r.0 ==> lines[k] != ""
    ensures r.1 <==> exists k :: i <= k < r.0 && HasText(lines[k])
    decreases |lines| - i
  {
    if i >= |lines| || lines[i] == "" then (i, false)
    else
      TrimSpaceSpec(lines[i]);
      var (next, found) := NextParagraph(lines, i + 1);
      (next, found || |TrimSpace(lines[i])| > 0)
  }

  /** findNextParagraph (minihtml.go:174-187). */
  method FindNextParagraph(lines: seq<string>, index: nat) returns (next: nat, hasContent: bool)
    ensures (next, hasContent) == NextParagraph(lines, index)
  {
    hasContent := false;
    next := index;
    while next < |lines|
      invariant index <= |lines| ==> index <= next <= |lines|
      invariant index > |lines| ==> next == index
      invariant forall k :: index <= k < next ==> lines[k] != ""
      invariant NextParagraph(lines, index)
        == (NextParagraph(lines, next).0, hasContent || NextParagraph(lines, next).1)
      decreases |lines| - next
    {
      var l := lines[next];
      if |TrimSpace(l)| > 0 {
        hasContent := true;
      }
      if |l| == 0 {
        return;
      }
      next := next + 1;
    }
  }

  /** A paragraph lookahead that reports text has moved past its start. */
  lemma FoundMeansAdvanced(lines: seq<string>, i: nat)
    requires NextParagraph(lines, i).1
    ensures i < NextParagraph(lines, i).0 <= |lines|
  {
  }

  /** The `<li>` element findNextList writes for one line: every `-` is
      dropped, nothing is escaped. */
  function ListItem(l: string): string {
    "<li>" + ReplaceAll(l, '-', "") + "</li>\n"
  }

  function ListItems(ls: seq<string>): string {
    if ls == [] then "" else ListItem(ls[0]) + ListItems(ls[1..])
  }

  /** What findNextList returns from `i`: the items of the run of list
      lines starting at `i`, and the index of the first line after it. */
  function ListScan(lines: seq<string>, i: nat): (r: (string, nat))
    ensures i > |lines| ==> r == ("", i)
    ensures i <= |lines| ==> i <= r.1 <= |lines|
    decreases |lines| - i
  {
    if i >= |lines| || !IsList(lines[i]) then ("", i)
    else
      var (items, next) := ListScan(lines, i + 1);
      (ListItem(lines[i]) + items, next)
  }

  /** The list scanner takes the maximal run of list lines starting at `i`
      and writes one item for each of them, in order. */
  lemma {:induction false} ListScanRun(lines: seq<string>, i: nat)
    requires i <= |lines|
    ensures forall k :: i <= k < ListScan(lines, i).1 ==> IsList(lines[k])
    ensures ListScan(lines, i).1 < |lines| ==> !IsList(lines[ListScan(lines, i).1])
    ensures ListScan(lines, i).0 == ListItems(lines[i..ListScan(lines, i).1])
    decreases |lines| - i
  {
    if i < |lines| && IsList(lines[i]) {
      ListScanRun(lines, i + 1);
      var next := ListScan(lines, i).1;
      assert lines[i..next][1..] == lines[i + 1..next];
    }
  }

  /** findNextList (minihtml.go:208-222). */
  method FindNextList(lines: seq<string>, index: nat) returns (items: string, next: nat)
    ensures (items, next) == ListScan(lines, index)
  {
    items := "";
    next := index;
    while next < |lines|
      invariant index <= |lines| ==> index <= next <= |lines|
      invariant index > |lines| ==> next == index
      invariant ListScan(lines, index).0 == items + ListScan(lines, next).0
      invariant ListScan(lines, index).1 == ListScan(lines, next).1
      decreases |lines| - next
    {
      var l := lines[next];
      if !IsList(l) {
        ListScanStep(lines, next, items);
        return;
      }
      l := ReplaceAll(l, '-', "");
      var item := "<li>" + l + "</li>\n";
      ListScanStep(lines, next, items);
      items := items + item;
      next := next + 1;
    }
    assert items + ListScan(lines, next).0 == items;
  }

  /** One turn of findNextList's loop: the line at `i` either ends the run
      or adds its item. */
  lemma ListScanStep(lines: seq<string>, i: nat, items: string)
    requires i < |lines|
    ensures !IsList(lines[i]) ==> ListScan(lines, i) == ("", i) && items + "" == items
    ensures IsList(lines[i]) ==>
      && items + ListScan(lines, i).0 == (items + ListItem(lines[i])) + ListScan(lines, i + 1).0
      && ListScan(lines, i).1 == ListScan(lines, i + 1).1
  {
  }

  /** The line findNextCode writes for one code line: escaped, trimmed and
      ended by a newline. */
  function CodeLine(l: string): string {
    TrimSpace(Escape(l)) + "\n"
  }

  function CodeLines(ls: seq<string>): (r: string)
  {
    if ls == [] then "" else CodeLine(ls[0]) + CodeLines(ls[1..])
  }

  /** Code blocks hold no raw angle bracket: every line was escaped. */
  lemma {:induction false} CodeLinesEscaped(ls: seq<string>)
    ensures NoAngle(CodeLines(ls))
  {
    if ls != [] {
      CodeLinesEscaped(ls[1..]);
      TrimSpaceSpec(Escape(ls[0]));
    }
  }

  /** A line findNextCode takes: code once escaped. */
  predicate IsCodeLine(l: string) {
    IsCodeSpec(Escape(l))
  }

  /** What findNextCode returns from `i`: the maximal run of lines that are
      code once escaped, written escaped and trimmed, and the index of the
      first line after the run. */
  function CodeScan(lines: seq<string>, i: nat): (r: (string, nat))
    ensures i > |lines| ==> r == ("", i)
    ensures i <= |lines| ==> i <= r.1 <= |lines|
    decreases |lines| - i
  {
    if i >= |lines| || !IsCodeLine(lines[i]) then ("", i)
    else
      var (text, next) := CodeScan(lines, i + 1);
      (CodeLine(lines[i]) + text, next)
  }

  /** The code scanner takes the maximal run of code lines starting at `i`
      and writes each of them, escaped and trimmed, in order. */
  lemma {:induction false} CodeScanRun(lines: seq<string>, i: nat)
    requires i <= |lines|
    ensures forall k :: i <= k < CodeScan(lines, i).1 ==> IsCodeLine(lines[k])
    ensures CodeScan(lines, i).1 < |lines| ==> !IsCodeLine(lines[CodeScan(lines, i).1])
    ensures CodeScan(lines, i).0 == CodeLines(lines[i..CodeScan(lines, i).1])
    decreases |lines| - i
  {
    if i < |lines| && IsCodeLine(lines[i]) {
      CodeScanRun(lines, i + 1);
      var next := CodeScan(lines, i).1;
      assert lines[i..next][1..] == lines[i + 1..next];
    }
  }

  /** findNextCode (minihtml.go:189-206). */
  method FindNextCode(lines: seq<string>, index: nat) returns (text: string, next: nat)
    ensures (text, next) == CodeScan(lines, index)
  {
    text := "";
    next := index;
    while next < |lines|
      invariant index <= |lines| ==> index <= next <= |lines|
      invariant index > |lines| ==> next == index
      invariant CodeScan(lines, index).0 == text + CodeScan(lines, next).0
      invariant CodeScan(lines, index).1 == CodeScan(lines, next).1
      decreases |lines| - next
    {
      var l := Escape(lines[next]);
      var code := IsCode(l);
      if !code {
        CodeScanStep(lines, next, text);
        return;
      }
      CodeScanStep(lines, next, text);
      text := text + (TrimSpace(l) + "\n");
      next := next + 1;
    }
    assert text + CodeScan(lines, next).0 == text;
  }

  /** One turn of findNextCode's loop: the line at `i` either ends the run
      or adds its escaped, trimmed text. */
  lemma CodeScanStep(lines: seq<string>, i: nat, text: string)
    requires i < |lines|
    ensures !IsCodeLine(lines[i]) ==> CodeScan(lines, i) == ("", i) && text + "" == text
    ensures IsCodeLine(lines[i]) ==>
      && text + CodeScan(lines, i).0 == (text + CodeLine(lines[i])) + CodeScan(lines, i + 1).0
      && CodeScan(lines, i).1 == CodeScan(lines, i + 1).1
  {
  }

  /** A list line at `i` is always taken: the list scanner moves on. */
  lemma ListScanAdvances(lines: seq<string>, i: nat)
    requires i < |lines| && IsList(lines[i])
    ensures ListScan(lines, i).1 > i
  {
  }

  /** A line at `i` that is code once escaped is always taken. */
  lemma CodeScanAdvances(lines: seq<string>, i: nat)
    requires i < |lines| && IsCodeLine(lines[i])
    ensures CodeScan(lines, i).1 > i
  {
  }
}
