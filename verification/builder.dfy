/** The document builder of convertToTemplate (minihtml.go:63-117, 150):
    the loop that walks the lines, escapes each, and appends to the body
    section a paragraph break, a heading, a list, a code block or a plain
    line; followed by the navigation pass.

    Each turn of the loop is specified by `Step`, a function of the lines
    and the loop's state, and the whole loop by `Run`. When the line at
    index 0 holds four or more spaces and nothing else, minihtml.go's loop
    never advances; `Run` reports that as `Stuck`, and the method reports
    it instead of looping. */
module Builder {
  import opened Text
  import opened Classify
  import opened Scan
  import opened Numbering
  import opened Nav
  import opened Template

  /** The loop's state: `index`, `hasContent`, the heading counters,
      `navMap` and the body section built so far. */
  datatype Doc = Doc(index: nat, hasContent: bool, counters: Counters,
                     navMap: map<string, string>, body: seq<string>)

  /** The state before the first turn (minihtml.go:54-64). */
  function Begin(): Doc {
    Doc(0, false, Start(), map[], [])
  }

  predicate Inv(lines: seq<string>, d: Doc) {
    d.index <= |lines| && Valid(d.counters)
  }

  /** The line the loop classifies at `i` (minihtml.go:68-79): escaped, and
      at index 0 prefixed with a paragraph opening. */
  function Prepared(lines: seq<string>, i: nat): string
    requires i < |lines|
  {
    if i == 0 then "<p>\n" + Escape(lines[i]) else Escape(lines[i])
  }

  /** The heading element (minihtml.go:101). */
  function HeadingTag(level: nat, id: string, text: string): string {
    "<h" + NatToString(level + 1) + " id=\"" + id + "\">" + text
    + "</h" + NatToString(level + 1) + ">\n"
  }

  /** The text a heading line shows: its asterisks dropped, then trimmed. */
  function HeadingText(l: string): string {
    TrimSpace(ReplaceAll(l, '*', ""))
  }

  /** One turn of the loop (minihtml.go:68-116). */
  function Step(lines: seq<string>, d: Doc): (r: Doc)
    requires d.index < |lines| && Valid(d.counters)
    ensures Inv(lines, r)
    ensures d.body <= r.body && |r.body| <= |d.body| + 1
  {
    var i := d.index;
    var l := Prepared(lines, i);
    var hc := d.hasContent || i == 0;
    if |l| == 0 then
      var closing := if hc then "</p>" else "";
      var (next, found) := NextParagraph(lines, i + 1);
      var body := if next - i > 1 && found then d.body + [closing + "\n<p>"] else d.body;
      d.(index := i + 1, hasContent := found, body := body)
    else if Contains(l, "*") && IsHeader(l) then
      assert l[0] in l;
      var level := Count(l, '*');
      NumberAnchor(d.counters, level);
      var c := Number(d.counters, level);
      var id := AnchorId(Top(c), Sub(c));
      var text := HeadingText(l);
      d.(index := i + 1, hasContent := hc, counters := c, navMap := d.navMap[id := text],
         body := d.body + [HeadingTag(level, id, text)])
    else if IsList(l) then
      var (items, next) := ListScan(lines, i);
      d.(index := next, hasContent := hc, body := d.body + ["<ul>" + items + "</ul><br/>"])
    else if IsCodeSpec(l) then
      var (text, next) := CodeScan(lines, i);
      d.(index := next, hasContent := hc, body := d.body + ["<pre>" + text + "</pre><br/>"])
    else
      d.(index := i + 1, hasContent := hc, body := d.body + [l + "<br/>"])
  }

  /** How a run of the loop ends: with its final state, or stuck at a turn
      that does not advance the index (where minihtml.go loops forever). */
  datatype Conversion = Finished(doc: Doc) | Stuck

  /** The loop from state `d` on. */
  function Run(lines: seq<string>, d: Doc): (r: Conversion)
    requires Inv(lines, d)
    ensures r.Finished? ==> r.doc.index == |lines| && Valid(r.doc.counters) && d.body <= r.doc.body
    decreases |lines| - d.index
  {
    if d.index == |lines| then Finished(d)
    else
      var d' := Step(lines, d);
      if d'.index <= d.index then Stuck else Run(lines, d')
  }

  /** The five sections convertToTemplate fills (minihtml.go:49-53). */
  function Sections(body: seq<string>, nav: seq<string>): map<string, seq<string>> {
    map["head" := [], "header" := [], "nav" := nav, "body" := body, "footer" := []]
  }

  /** What convertToTemplate produces for `lines`: the template, or `Loops`
      when its loop never ends. */
  datatype Result = Done(template: map<string, seq<string>>) | Loops

  ghost function Convert(lines: seq<string>): Result {
    match Run(lines, Begin())
    case Finished(d) => Done(Sections(d.body, [NavFragment(d.counters.subs, d.navMap)]))
    case Stuck => Loops
  }

  /** A finished conversion fills exactly the five sections; head, header
      and footer stay empty and nav holds the one navigation fragment. */
  lemma ConvertSections(lines: seq<string>)
    requires Convert(lines).Done?
    ensures var t := Convert(lines).template;
      && t.Keys == {"head", "header", "nav", "body", "footer"}
      && t["head"] == t["header"] == t["footer"] == []
      && |t["nav"]| == 1
  {
  }

  /** After index 0 every turn advances: a blank, heading or plain line by
      one, a list or code line because its scanner takes at least that line. */
  lemma StepAdvances(lines: seq<string>, d: Doc)
    requires Valid(d.counters) && 0 < d.index < |lines|
    ensures Step(lines, d).index > d.index
  {
    var i := d.index;
    var l := Prepared(lines, i);
    EscapeKeepsList(lines[i]);
    if !(|l| == 0) && !(Contains(l, "*") && IsHeader(l)) {
      if IsList(l) {
        ListScanAdvances(lines, i);
      } else if IsCodeSpec(l) {
        CodeScanAdvances(lines, i);
      }
    }
  }

  /** The paragraph opening at index 0 holds none of the characters the
      list and code tests look for, so the prefixed line is a list line
      exactly when the line is, and holds a tab or four spaces exactly when
      the escaped line does. */
  lemma FirstLineTests(e: string)
    ensures IsList("<p>\n" + e) <==> IsList(e)
    ensures Contains("<p>\n" + e, "\t") <==> Contains(e, "\t")
    ensures Contains("<p>\n" + e, "    ") <==> Contains(e, "    ")
    ensures !AllSpaces("<p>\n" + e) && !IsHeader("<p>\n" + e)
    ensures IsCodeSpec("<p>\n" + e) <==> Contains(e, "\t") || Contains(e, "    ")
  {
    ContainsSkip("<p>\n", e, "- ");
    ContainsSkip("<p>\n", e, "\t");
    ContainsSkip("<p>\n", e, "    ");
    assert ("<p>\n" + e)[0] == '<';
  }

  /** The turn at index 0 fails to advance exactly when the first line is
      four or more spaces and nothing else: the prefixed line then passes
      isCode (four spaces, not all spaces) but the line itself, all spaces,
      does not, so findNextCode returns index 0 (minihtml.go:108-112,
      199-200). */
  lemma StepFirst(lines: seq<string>, d: Doc)
    requires Valid(d.counters) && d.index == 0 < |lines|
    ensures Step(lines, d).index == 0 <==> AllSpaces(lines[0]) && |lines[0]| >= 4
  {
    var s := lines[0];
    var e := Escape(s);
    var l := Prepared(lines, 0);
    assert l == "<p>\n" + e;
    FirstLineTests(e);
    EscapeKeepsList(s);
    EscapeAllSpaces(s);
    if IsList(l) {
      ListScanAdvances(lines, 0);
      assert !AllSpaces(s) by {
        ContainsBounds(s, "- ");
      }
    } else if IsCodeSpec(l) {
      if IsCodeLine(s) {
        CodeScanAdvances(lines, 0);
        if AllSpaces(s) {
          BlankIsNotCode(e);
        }
      } else {
        assert CodeScan(lines, 0).1 == 0;
        assert !Contains(e, "\t");
        assert AllSpaces(e);
        AllSpacesFourSpaces(e);
      }
    } else {
      if AllSpaces(s) {
        AllSpacesFourSpaces(e);
      }
    }
  }

  /** From any state past index 0 the loop finishes. */
  lemma {:induction false} RunFinishes(lines: seq<string>, d: Doc)
    requires Inv(lines, d) && d.index > 0
    ensures Run(lines, d).Finished?
    decreases |lines| - d.index
  {
    if d.index < |lines| {
      StepAdvances(lines, d);
      RunFinishes(lines, Step(lines, d));
    }
  }

  /** convertToTemplate loops forever exactly when the first line is four
      or more spaces and nothing else; on every other input it finishes. */
  lemma ConvertLoops(lines: seq<string>)
    ensures Convert(lines).Loops? <==> |lines| > 0 && AllSpaces(lines[0]) && |lines[0]| >= 4
  {
    if |lines| > 0 {
      var d := Begin();
      StepFirst(lines, d);
      if Step(lines, d).index > 0 {
        RunFinishes(lines, Step(lines, d));
      }
    }
  }

  /** A blank line past index 0 (minihtml.go:80-93): the index moves on by
      one, hasContent becomes whether the next paragraph has text, and a
      paragraph break ("</p>\n<p>" when a paragraph was open, "\n<p>"
      otherwise) is appended exactly when it has. */
  lemma BlankLine(lines: seq<string>, d: Doc)
    requires Valid(d.counters) && 0 < d.index < |lines| && lines[d.index] == ""
    ensures var r := Step(lines, d);
      var found := NextParagraph(lines, d.index + 1).1;
      && r.index == d.index + 1
      && r.hasContent == found
      && r.counters == d.counters && r.navMap == d.navMap
      && r.body == if found then d.body + [(if d.hasContent then "</p>" else "") + "\n<p>"] else d.body
  {
  }

  /** A heading line past index 0 (minihtml.go:95-102): its level is its
      number of asterisks, the counters are updated for that level, the
      anchor is taken from the updated counters, navMap records the
      heading's text under the anchor, and the body gets the heading
      element. The text holds no raw angle bracket. */
  lemma HeadingLine(lines: seq<string>, d: Doc)
    requires Valid(d.counters) && 0 < d.index < |lines|
    requires IsHeader(Escape(lines[d.index]))
    ensures var l := Escape(lines[d.index]);
      var level := Count(l, '*');
      var c := Number(d.counters, level);
      var id := AnchorId(Top(c), Sub(c));
      var r := Step(lines, d);
      && level >= 1
      && r.index == d.index + 1
      && r.counters == c
      && r.navMap == d.navMap[id := HeadingText(l)]
      && r.body == d.body + [HeadingTag(level, id, HeadingText(l))]
      && NoAngle(HeadingText(l))
  {
    var l := Escape(lines[d.index]);
    ContainsChar(l, '*');
    assert l[0] in l;
    ReplaceAllMembers(l, '*', "");
    TrimSpaceSpec(ReplaceAll(l, '*', ""));
  }

  /** A plain line past index 0 (minihtml.go:114) is appended escaped,
      followed by a line break: it holds no raw angle bracket. */
  lemma PlainLine(lines: seq<string>, d: Doc)
    requires Valid(d.counters) && 0 < d.index < |lines|
    requires var l := Escape(lines[d.index]);
      |l| > 0 && !IsHeader(l) && !IsList(l) && !IsCodeSpec(l)
    ensures Step(lines, d).body == d.body + [Escape(lines[d.index]) + "<br/>"]
    ensures Step(lines, d).index == d.index + 1
    ensures NoAngle(Escape(lines[d.index]))
  {
  }

  /** Every anchor handed out so far has its text in navMap, so every link
      of the nav section shows a recorded heading text. */
  predicate NavComplete(d: Doc) {
    forall t, s :: t in d.counters.subs && 1 <= s <= d.counters.subs[t] ==> AnchorId(t, s) in d.navMap
  }

  lemma StepKeepsNavComplete(lines: seq<string>, d: Doc)
    requires Valid(d.counters) && d.index < |lines| && NavComplete(d)
    ensures NavComplete(Step(lines, d))
  {
    var l := Prepared(lines, d.index);
    if |l| > 0 && Contains(l, "*") && IsHeader(l) {
      StepHeading(lines, d);
      NumberKeepsNavComplete(d, Count(l, '*'), HeadingText(l));
    }
  }

  /** Numbering a heading and recording its text under the new anchor keeps
      every handed-out anchor recorded. */
  lemma NumberKeepsNavComplete(d: Doc, level: nat, text: string)
    requires Valid(d.counters) && level >= 1 && NavComplete(d)
    ensures var c := Number(d.counters, level);
      NavComplete(d.(counters := c, navMap := d.navMap[AnchorId(Top(c), Sub(c)) := text]))
  {
  }

  lemma {:induction false} RunKeepsNavComplete(lines: seq<string>, d: Doc)
    requires Inv(lines, d) && NavComplete(d)
    ensures Run(lines, d).Finished? ==> NavComplete(Run(lines, d).doc)
    decreases |lines| - d.index
  {
    if d.index < |lines| {
      StepKeepsNavComplete(lines, d);
      if Step(lines, d).index > d.index {
        RunKeepsNavComplete(lines, Step(lines, d));
      }
    }
  }

  /** In a finished conversion, every (top, sub) pair the nav section
      links has its heading text recorded under its anchor. */
  lemma ConvertNavComplete(lines: seq<string>)
    requires Run(lines, Begin()).Finished?
    ensures var d := Run(lines, Begin()).doc;
      forall p :: p in Pairs(SortedKeys(d.counters.subs.Keys), d.counters.subs) ==>
        AnchorId(p.0, p.1) in d.navMap
  {
    RunKeepsNavComplete(lines, Begin());
    NavOrder(Run(lines, Begin()).doc.counters.subs);
  }

  /** convertToTemplate's loop and navigation pass (minihtml.go:46-150),
      with `lines` given. It returns `loops` where minihtml.go's loop would
      never end. */
  method ConvertToTemplate(lines: seq<string>) returns (a: Api, loops: bool)
    ensures fresh(a)
    ensures loops <==> Convert(lines).Loops?
    ensures !loops ==> a.template == Convert(lines).template
  {
    a := new Api();
    a.template := a.template["head" := []];
    a.template := a.template["header" := []];
    a.template := a.template["nav" := []];
    a.template := a.template["body" := []];
    a.template := a.template["footer" := []];
    var headingsMap: map<nat, nat> := map[];
    var headings := new nat[6](_ => 0);
    var navMap: map<string, string> := map[];
    var index := 0;
    var hasContent := false;
    loops := false;
    SectionsStart(a.template);
    assert headings[..] == Start().headings;
    while index < |lines|
      invariant index <= |lines| && headings.Length == 6
      invariant a.template == Sections(Section(a.template, "body"), [])
      invariant Valid(Counters(headings[..], headingsMap))
      invariant Run(lines, Doc(index, hasContent, Counters(headings[..], headingsMap), navMap, Section(a.template, "body")))
        == Run(lines, Begin())
      decreases |lines| - index
    {
      ghost var d := Doc(index, hasContent, Counters(headings[..], headingsMap), navMap, Section(a.template, "body"));
      var at := index;
      headingsMap, navMap, index, hasContent := Turn(lines, a, headings, headingsMap, navMap, index, hasContent);
      ghost var d' := Doc(index, hasContent, Counters(headings[..], headingsMap), navMap, Section(a.template, "body"));
      if index <= at {
        // minihtml.go would repeat this turn forever
        RunStuck(lines, d, d');
        loops := true;
        return;
      }
      Advance(lines, d, d');
    }
    ghost var body := Section(a.template, "body");
    RunDone(lines, Doc(index, hasContent, Counters(headings[..], headingsMap), navMap, body));
    var nav := BuildNav(headingsMap, navMap);
    SectionsBody(body, [], [nav]);
    assert [] + [nav] == [nav];
    a.template := a.template["nav" := a.template["nav"] + [nav]];
  }

  /** One turn of the loop (minihtml.go:68-116) on the loop's variables:
      the body section of `a`, the counters in `headings` and
      `headingsMap`, `navMap`, `index` and `hasContent`. */
  method Turn(lines: seq<string>, a: Api, headings: array<nat>, headingsMap: map<nat, nat>,
              navMap: map<string, string>, index: nat, hasContent: bool)
    returns (headingsMap': map<nat, nat>, navMap': map<string, string>, index': nat, hasContent': bool)
    requires index < |lines| && headings.Length == 6
    requires a.template == Sections(Section(a.template, "body"), [])
    requires Valid(Counters(headings[..], headingsMap))
    modifies a, headings
    ensures a.template == Sections(Section(a.template, "body"), [])
    ensures Doc(index', hasContent', Counters(headings[..], headingsMap'), navMap', Section(a.template, "body"))
      == Step(lines, Doc(index, hasContent, Counters(old(headings[..]), headingsMap), navMap, Section(old(a.template), "body")))
  {
    ghost var d := Doc(index, hasContent, Counters(headings[..], headingsMap), navMap, Section(a.template, "body"));
    headingsMap', navMap', index', hasContent' := headingsMap, navMap, index, hasContent;
    var l := EscapeLine(lines[index]);
    if index == 0 {
      l := "<p>\n" + l;
      hasContent' := true;
    }
    assert l == Prepared(lines, index);
    if |l| == 0 {
      index', hasContent' := BlankTurn(lines, a, index, hasContent', d, l);
      return;
    }
    if Contains(l, "*") && IsHeader(l) {
      headingsMap', navMap', index' := HeadingTurn(lines, a, headings, headingsMap, navMap, index, d, l);
    } else if IsList(l) {
      index' := ListTurn(lines, a, index, d, l);
    } else {
      var code := IsCode(l);
      if code {
        index' := CodeTurn(lines, a, index, d, l);
      } else {
        PlainTurn(lines, a, index, d, l);
        index' := index' + 1;
      }
    }
  }

  /** An empty line (minihtml.go:80-93): a paragraph break when the next
      paragraph has text. */
  method BlankTurn(lines: seq<string>, a: Api, index: nat, hasContent: bool, ghost d: Doc, l: string)
    returns (index': nat, hasContent': bool)
    requires index == d.index < |lines| && Valid(d.counters) && hasContent == (d.hasContent || index == 0)
    requires l == Prepared(lines, index) && |l| == 0
    requires a.template == Sections(d.body, [])
    modifies a
    ensures a.template == Sections(Section(a.template, "body"), [])
    ensures Step(lines, d) == d.(index := index', hasContent := hasContent', body := Section(a.template, "body"))
  {
    StepBlank(lines, d);
    var closing := l;
    hasContent' := hasContent;
    if hasContent' {
      closing := "</p>";
      hasContent' := false;
    }
    var prev := index;
    index' := index + 1;
    var next;
    next, hasContent' := FindNextParagraph(lines, index');
    if next - prev > 1 && hasContent' {
      SectionsBody(d.body, [], d.body + [closing + "\n<p>"]);
      a.template := a.template["body" := a.template["body"] + [closing + "\n<p>"]];
    }
  }

  /** A heading line (minihtml.go:95-102). */
  method HeadingTurn(lines: seq<string>, a: Api, headings: array<nat>, headingsMap: map<nat, nat>,
                     navMap: map<string, string>, index: nat, ghost d: Doc, l: string)
    returns (headingsMap': map<nat, nat>, navMap': map<string, string>, index': nat)
    requires d == Doc(d.index, d.hasContent, Counters(headings[..], headingsMap), navMap, d.body)
    requires index == d.index < |lines| && headings.Length == 6 && Valid(d.counters)
    requires l == Prepared(lines, index) && |l| > 0 && Contains(l, "*") && IsHeader(l)
    requires a.template == Sections(d.body, [])
    modifies a, headings
    ensures a.template == Sections(Section(a.template, "body"), [])
    ensures Step(lines, d) == Doc(index', d.hasContent || index == 0, Counters(headings[..], headingsMap'), navMap', Section(a.template, "body"))
  {
    var level := Count(l, '*');
    HeaderLevel(l);
    StepHeading(lines, d);
    headingsMap' := NumberHeading(headings, headingsMap, level);
    var id := AnchorId(headings[0], CountOf(headingsMap', headings[0]));
    var text := HeadingText(l);
    SectionsBody(d.body, [], d.body + [HeadingTag(level, id, text)]);
    a.template := a.template["body" := a.template["body"] + [HeadingTag(level, id, text)]];
    navMap' := navMap[id := text];
    index' := index + 1;
  }

  /** A list line (minihtml.go:104-107). */
  method ListTurn(lines: seq<string>, a: Api, index: nat, ghost d: Doc, l: string) returns (index': nat)
    requires index == d.index < |lines| && Valid(d.counters)
    requires l == Prepared(lines, index) && |l| > 0 && !(Contains(l, "*") && IsHeader(l)) && IsList(l)
    requires a.template == Sections(d.body, [])
    modifies a
    ensures a.template == Sections(Section(a.template, "body"), [])
    ensures Step(lines, d) == d.(index := index', hasContent := d.hasContent || index == 0, body := Section(a.template, "body"))
  {
    StepList(lines, d);
    var c;
    c, index' := FindNextList(lines, index);
    SectionsBody(d.body, [], d.body + ["<ul>" + c + "</ul><br/>"]);
    a.template := a.template["body" := a.template["body"] + ["<ul>" + c + "</ul><br/>"]];
  }

  /** A code line (minihtml.go:108-112). */
  method CodeTurn(lines: seq<string>, a: Api, index: nat, ghost d: Doc, l: string) returns (index': nat)
    requires index == d.index < |lines| && Valid(d.counters)
    requires l == Prepared(lines, index) && |l| > 0 && !(Contains(l, "*") && IsHeader(l)) && !IsList(l) && IsCodeSpec(l)
    requires a.template == Sections(d.body, [])
    modifies a
    ensures a.template == Sections(Section(a.template, "body"), [])
    ensures Step(lines, d) == d.(index := index', hasContent := d.hasContent || index == 0, body := Section(a.template, "body"))
  {
    StepCode(lines, d);
    var c;
    c, index' := FindNextCode(lines, index);
    SectionsBody(d.body, [], d.body + ["<pre>" + c + "</pre><br/>"]);
    a.template := a.template["body" := a.template["body"] + ["<pre>" + c + "</pre><br/>"]];
  }

  /** A plain line (minihtml.go:113-115). */
  method PlainTurn(lines: seq<string>, a: Api, index: nat, ghost d: Doc, l: string)
    requires index == d.index < |lines| && Valid(d.counters)
    requires l == Prepared(lines, index) && |l| > 0 && !(Contains(l, "*") && IsHeader(l)) && !IsList(l) && !IsCodeSpec(l)
    requires a.template == Sections(d.body, [])
    modifies a
    ensures a.template == Sections(Section(a.template, "body"), [])
    ensures Step(lines, d) == d.(index := index + 1, hasContent := d.hasContent || index == 0, body := Section(a.template, "body"))
  {
    StepPlain(lines, d);
    SectionsBody(d.body, [], d.body + [l + "<br/>"]);
    a.template := a.template["body" := a.template["body"] + [l + "<br/>"]];
  }

  /** The counter update of minihtml.go:97-100, on the array and the map. */
  method NumberHeading(headings: array<nat>, headingsMap: map<nat, nat>, level: nat) returns (m: map<nat, nat>)
    requires headings.Length == 6 && level >= 1 && Valid(Counters(headings[..], headingsMap))
    modifies headings
    ensures Counters(headings[..], m) == Number(Counters(old(headings[..]), headingsMap), level)
    ensures Valid(Counters(headings[..], m))
  {
    NumberAnchor(Counters(headings[..], headingsMap), level);
    m := headingsMap;
    if level < 6 {
      headings[level - 1] := headings[level - 1] + 1;
      m := m[headings[0] := CountOf(m, headings[0]) + 1];
    }
  }

  /** The blank-line turn as Step takes it. */
  lemma StepBlank(lines: seq<string>, d: Doc)
    requires Valid(d.counters) && d.index < |lines| && |Prepared(lines, d.index)| == 0
    ensures var i := d.index;
      var (next, found) := NextParagraph(lines, i + 1);
      var closing := if d.hasContent || i == 0 then "</p>" else "";
      Step(lines, d) == d.(index := i + 1, hasContent := found,
        body := if next - i > 1 && found then d.body + [closing + "\n<p>"] else d.body)
  {
  }

  /** The heading turn as Step takes it. */
  lemma StepHeading(lines: seq<string>, d: Doc)
    requires Valid(d.counters) && d.index < |lines|
    requires var l := Prepared(lines, d.index); |l| > 0 && Contains(l, "*") && IsHeader(l)
    ensures var l := Prepared(lines, d.index);
      var level := Count(l, '*');
      var c := Number(d.counters, level);
      var id := AnchorId(Top(c), Sub(c));
      && level >= 1
      && Step(lines, d) == d.(index := d.index + 1, hasContent := d.hasContent || d.index == 0, counters := c,
        navMap := d.navMap[id := HeadingText(l)], body := d.body + [HeadingTag(level, id, HeadingText(l))])
  {
  }

  /** A turn that does not advance makes the run stuck. */
  lemma RunStuck(lines: seq<string>, d: Doc, d': Doc)
    requires Valid(d.counters) && d.index < |lines|
    requires d' == Step(lines, d) && d'.index <= d.index
    ensures Run(lines, d) == Stuck
  {
  }

  /** A run that has reached the end of the lines from the loop's start
      state gives the conversion's body and counters. */
  lemma RunDone(lines: seq<string>, d: Doc)
    requires Inv(lines, d) && d.index == |lines| && Run(lines, d) == Run(lines, Begin())
    ensures Convert(lines) == Done(Sections(d.body, [NavFragment(d.counters.subs, d.navMap)]))
  {
  }

  /** A turn that advances leaves the rest of the run unchanged. */
  lemma Advance(lines: seq<string>, d: Doc, d': Doc)
    requires Valid(d.counters) && d.index < |lines|
    requires d' == Step(lines, d) && d'.index > d.index
    ensures Inv(lines, d') && Run(lines, d') == Run(lines, d)
  {
  }

  /** The list turn as Step takes it; it always advances. */
  lemma StepList(lines: seq<string>, d: Doc)
    requires Valid(d.counters) && d.index < |lines|
    requires var l := Prepared(lines, d.index); |l| > 0 && !(Contains(l, "*") && IsHeader(l)) && IsList(l)
    ensures var (items, next) := ListScan(lines, d.index);
      && Step(lines, d) == d.(index := next, hasContent := d.hasContent || d.index == 0,
        body := d.body + ["<ul>" + items + "</ul><br/>"])
      && next > d.index
  {
    EscapeKeepsList(lines[d.index]);
    if d.index == 0 {
      FirstLineTests(Escape(lines[0]));
    }
    ListScanAdvances(lines, d.index);
  }

  /** The code turn as Step takes it. */
  lemma StepCode(lines: seq<string>, d: Doc)
    requires Valid(d.counters) && d.index < |lines|
    requires var l := Prepared(lines, d.index);
      |l| > 0 && !(Contains(l, "*") && IsHeader(l)) && !IsList(l) && IsCodeSpec(l)
    ensures var (text, next) := CodeScan(lines, d.index);
      Step(lines, d) == d.(index := next, hasContent := d.hasContent || d.index == 0,
        body := d.body + ["<pre>" + text + "</pre><br/>"])
  {
  }

  /** The plain-line turn as Step takes it. */
  lemma StepPlain(lines: seq<string>, d: Doc)
    requires Valid(d.counters) && d.index < |lines|
    requires var l := Prepared(lines, d.index);
      |l| > 0 && !(Contains(l, "*") && IsHeader(l)) && !IsList(l) && !IsCodeSpec(l)
    ensures Step(lines, d) == d.(index := d.index + 1, hasContent := d.hasContent || d.index == 0,
      body := d.body + [Prepared(lines, d.index) + "<br/>"])
  {
  }

  lemma SectionsStart(t: map<string, seq<string>>)
    requires t == map[]["head" := []]["header" := []]["nav" := []]["body" := []]["footer" := []]
    ensures t == Sections([], []) && Section(t, "body") == []
  {
  }

  /** A heading line has at least one asterisk. */
  lemma HeaderLevel(l: string)
    requires IsHeader(l)
    ensures Count(l, '*') >= 1
  {
  }

  lemma SectionsBody(body: seq<string>, nav: seq<string>, x: seq<string>)
    ensures Section(Sections(body, nav), "body") == body
    ensures Section(Sections(body, nav), "nav") == nav
    ensures Sections(body, nav)["body" := x] == Sections(x, nav)
    ensures Sections(body, nav)["nav" := x] == Sections(body, x)
  {
  }

  /** The escaping at the top of the loop (minihtml.go:69-75): each
      replacement is made only when the line holds the character. */
  method EscapeLine(line: string) returns (l: string)
    ensures l == Escape(line)
  {
    l := line;
    ContainsChar(l, '>');
    if Contains(l, ">") {
      l := ReplaceAll(l, '>', "&gt;");
    } else {
      ReplaceAllOfAbsent(l, '>', "&gt;");
    }
    ContainsChar(l, '<');
    if Contains(l, "<") {
      l := ReplaceAll(l, '<', "&lt;");
    } else {
      ReplaceAllOfAbsent(l, '<', "&lt;");
    }
  }
}
