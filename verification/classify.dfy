/** The line classifiers of minihtml.go: isHeader, isList and isCode, each a
    test on one line. */
module Classify {
  import opened Text

  /** The text before the first `c` in `s`: the first piece that
      `strings.Split(s, [c])` yields (all of `s` when it has no `c`). */
  function FirstField(s: string, c: char): (r: string)
    ensures StartsWith(s, r) && c !in r
    ensures |r| < |s| ==> s[|r|] == c
  {
    if s == [] || s[0] == c then [] else [s[0]] + FirstField(s[1..], c)
  }

  /** isHeader (minihtml.go:224-239): no "*all*", some "* ", at least two
      pieces when split at `*`, and an empty first piece. Together these say
      the line starts with `*`. */
  function IsHeader(s: string): (r: bool)
    ensures r <==> |s| > 0 && s[0] == '*' && Contains(s, "* ") && !Contains(s, "*all*")
  {
    if Contains(s, "*all*") then false
    else if !Contains(s, "* ") then false
    else if Count(s, '*') + 1 < 2 then false
    else
      assert '*' in s by { ContainsBounds(s, "* "); }
      FirstField(s, '*') == ""
  }

  /** isList (minihtml.go:260-262): a dash followed by a space somewhere in
      the line. */
  function IsList(s: string): (r: bool)
    ensures r <==> exists i :: 0 <= i < |s| - 1 && s[i] == '-' && s[i + 1] == ' '
  {
    ContainsPair(s, '-', ' ');
    Contains(s, "- ")
  }

  /** What isCode decides, in closed form: a tab anywhere; or four
      consecutive spaces in a line that is not all spaces; or a line whose
      first character is a space and whose second is not. */
  predicate IsCodeSpec(s: string) {
    || Contains(s, "\t")
    || (Contains(s, "    ") && !AllSpaces(s))
    || (|s| >= 2 && s[0] == ' ' && s[1] != ' ')
  }

  /** The positions of the spaces among the first `n` characters of `s`,
      in order: the `indexes` slice that isCode grows. */
  function SpaceIndexes(s: string, n: nat): seq<int>
    requires n <= |s|
  {
    if n == 0 then [] else SpaceIndexes(s, n - 1) + (if s[n - 1] == ' ' then [n - 1] else [])
  }

  /** `indexes` holds exactly the positions of the spaces seen so far. */
  lemma {:induction false} SpaceIndexesSpec(s: string, n: nat)
    requires n <= |s|
    ensures forall k :: k in SpaceIndexes(s, n) <==> 0 <= k < n && s[k] == ' '
  {
    if n > 0 {
      SpaceIndexesSpec(s, n - 1);
    }
  }

  /** isCode (minihtml.go:241-258). The loop visits every character; at the
      first non-space one for which the line holds a tab, or four spaces, or
      exactly one earlier space at position 0, it answers true. */
  method IsCode(s: string) returns (r: bool)
    ensures r == IsCodeSpec(s)
  {
    var indexes: seq<int> := [];
    var i := 0;
    while i < |s|
      invariant 0 <= i <= |s|
      invariant indexes == SpaceIndexes(s, i)
      invariant (forall k :: 0 <= k < i ==> s[k] == ' ') || (!Contains(s, "\t") && !Contains(s, "    "))
      invariant |s| >= 2 && s[0] == ' ' && s[1] != ' ' ==> i <= 1
    {
      var c := s[i];
      if c == ' ' {
        indexes := indexes + [i];
      } else if Contains(s, "\t") {
        return true;
      } else if Contains(s, "    ") {
        assert !AllSpaces(s);
        return true;
      } else if |indexes| == 1 && indexes[0] == 0 {
        SpaceIndexesSpec(s, i);
        assert 0 in indexes;
        assert i >= 2 ==> 1 !in indexes;
        return true;
      } else {
        assert i != 1 || s[0] != ' ';
      }
      i := i + 1;
    }
    if AllSpaces(s) {
      BlankIsNotCode(s);
    }
    return false;
  }

  /** An empty line or a line of spaces is never code. */
  lemma BlankIsNotCode(s: string)
    requires AllSpaces(s)
    ensures !IsCodeSpec(s)
  {
    if Contains(s, "\t") {
      ContainsBounds(s, "\t");
    }
  }

  /** Escaping does not change whether a line is a list item. */
  lemma EscapeKeepsList(s: string)
    ensures IsList(Escape(s)) <==> IsList(s)
  {
    EscapeContains(s, "- ");
  }

  /** Escaping does not change whether a line is code. */
  lemma EscapeKeepsCode(s: string)
    ensures IsCodeSpec(Escape(s)) <==> IsCodeSpec(s)
  {
    EscapeContains(s, "\t");
    EscapeContains(s, "    ");
    EscapeAllSpaces(s);
    EscapeHead(s);
  }
}
