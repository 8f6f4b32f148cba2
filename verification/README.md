# minihtml conversion core in Dafny

minihtml converts a line-oriented article (headings made of leading
asterisks, `- ` list items, indented code, blank-line paragraphs) into the
named HTML sections that an `Api` value hands to an HTML template. This
project models the conversion core of `minihtml.go` and proves what it
does, in six modules:

- `Text` (text.dfy) holds the string operations the converter calls:
  - `strings.Contains`, `strings.ReplaceAll` with a one-character pattern,
    `strings.Count`, `strings.TrimSpace` (with Go's white-space set), and
    `%v` on a non-negative integer;
  - the converter's HTML escaping, `>` to `&gt;` and then `<` to `&lt;`.
- `Classify` (classify.dfy) holds the line tests `isHeader`, `isList` and
  `isCode`. `isCode` is a method with its loop, proved equal to a
  closed-form predicate.
- `Scan` (scan.dfy) holds the block scanners `findNextParagraph`,
  `findNextList` and `findNextCode`. Each is a method with its loop, proved
  equal to a recursive specification function. Lemmas say which lines a
  scanner takes and what it writes for them.
- `Numbering` (numbering.dfy) holds the heading counters `headings` and
  `headingsMap`, their update for one heading, and the anchor text
  `header_<top>.<sub>`.
- `Nav` (nav.dfy) holds the navigation pass. It collects and sorts the top
  numbers, then writes one link per (top, sub) pair, bold when the heading
  text has an upper-case letter.
- `Template` (api.dfy) holds the `Api` object with its `Template` map, and
  `ParameterToString`.
- `Builder` (builder.dfy) holds the main loop of `convertToTemplate` and
  the nav pass after it. The method `ConvertToTemplate` updates the
  `headings` array, `headingsMap`, `navMap`, `index`, `hasContent` and the
  `Api`'s template in place. It is proved against:
  - `Step`, one turn of the loop as a function;
  - `Run`, the whole loop;
  - `Convert`, the finished template.

The loop of `convertToTemplate` does not always end. When line 0 is four
or more spaces and nothing else, the `"<p>\n"` prefix makes that line pass
`isCode`. The line itself, being all spaces, does not pass it. So
`findNextCode` returns index 0 again and the loop never advances.

`Run` reports such a turn as `Stuck`, and `ConvertToTemplate` returns
`loops` instead of looping. `Builder.ConvertLoops` proves that this is the
only input that loops.

Some consequences of the code that a reader might not expect:

- **Heading anchors.** A heading below level one never changes the top
  number. So headings at levels 1, 2, 2, 1, 2 get the anchors `header_1.1`,
  `header_1.2`, `header_1.3`, `header_2.1` and `header_2.2`
  (`Numbering.NumberingExample`).
- **Headings of six or more asterisks.** They leave the counters alone but
  are still emitted, with the current anchor, and overwrite that anchor's
  navMap text (minihtml.go:97-102).
- **Code lines.** `findNextCode` ends every code line it writes with a
  newline, the last one included (minihtml.go:202).
- **Line 0.** It is classified with its `"<p>\n"` prefix (minihtml.go:76-79),
  so it is never a heading.
- **List lines.** `findNextList` writes the raw lines, so list items are
  not escaped (minihtml.go:105, 210-218).
- **Unclosed paragraphs.** A blank line closes the open paragraph only
  when its lookahead finds text (minihtml.go:81-90). Otherwise the `</p>` is
  dropped and `hasContent` is cleared. For example, in the lines `"a"`, `""`,
  `""`, `"b"` the first paragraph is never closed (`Builder.BlankLine`).

## Model

| member | source | states |
|---|---|---|
| Classify.IsList | minihtml.go:260-262 | isList holds exactly when a `-` is followed directly by a space somewhere in the line. |
| Classify.IsHeader | minihtml.go:224-239 | isHeader holds exactly when the line starts with `*`, contains `* ` and does not contain `*all*`. |
| Classify.FirstField | minihtml.go:231-235 | The first field of `strings.Split` is a prefix of the line free of the separator, and the separator follows it when the line is longer. |
| Classify.IsCode | minihtml.go:241-258 | The loop over the characters answers exactly the closed form: a tab anywhere; or four consecutive spaces in a line that is not all spaces; or a first character that is a space with a non-space second one. |
| Classify.SpaceIndexesSpec | minihtml.go:242-245 | The `indexes` slice holds exactly the positions of the spaces visited so far. |
| Classify.BlankIsNotCode | minihtml.go:241-258 | A line of spaces only (the empty line included) is never code. |
| Classify.EscapeKeepsList | minihtml.go:260-262 | Escaping a line does not change whether it is a list line. |
| Classify.EscapeKeepsCode | minihtml.go:193-199 | Escaping a line does not change whether it is a code line. |
| Scan.NextParagraph | minihtml.go:174-187 | The lookahead stops at the first empty line at or after the start, or at the end; every line it passes is non-empty; its flag holds exactly when one of the passed lines has non-white-space text. |
| Scan.FindNextParagraph | minihtml.go:174-187 | The loop returns the stop index and flag of `NextParagraph`. |
| Scan.FoundMeansAdvanced | minihtml.go:87-88 | A lookahead that found text has moved past its start. |
| Scan.ListScan | minihtml.go:208-222 | From a start within the lines, the list scan stops between the start and the end of the lines; from past the end it takes nothing. Its run and items are stated by `Scan.ListScanRun`. |
| Scan.FindNextList | minihtml.go:208-222 | The loop returns the items and stop index of `ListScan`. |
| Scan.ListScanRun | minihtml.go:208-222 | The list scanner takes the maximal run of list lines from its start, stops on the first non-list line, and writes exactly one `<li>` item per line taken, in order, with every `-` removed and nothing escaped. |
| Scan.ListScanAdvances | minihtml.go:210-219 | A list line at the start is always taken. |
| Scan.CodeScan | minihtml.go:189-206 | From a start within the lines, the code scan stops between the start and the end of the lines; from past the end it takes nothing. Its run and text are stated by `Scan.CodeScanRun`. |
| Scan.FindNextCode | minihtml.go:189-206 | The loop returns the text and stop index of `CodeScan`. |
| Scan.CodeScanRun | minihtml.go:189-206 | The code scanner takes the maximal run of lines that are code once escaped, stops at the first other line, and writes each line taken escaped, trimmed and newline-ended, in order. |
| Scan.CodeLinesEscaped | minihtml.go:193-202 | Code-block text holds no raw `<` or `>`. |
| Scan.CodeScanAdvances | minihtml.go:199-203 | A line that is code once escaped is always taken. |
| Numbering.Start | minihtml.go:54-55 | Fresh counters are valid, with an empty map and top number 0. |
| Numbering.Number | minihtml.go:96-100 | Below level six, the level's own counter goes up by one, the other five stay, and the current top number becomes a counted one; from level six on nothing changes. |
| Numbering.NumberAnchor | minihtml.go:95-100 | A level-1 heading opens the next top number with sub 1; levels 2 to 5 keep the top number and take the next sub; six asterisks or more change nothing; validity is kept. |
| Numbering.NumberCovers | minihtml.go:96-102 | The anchor a heading below level six receives was not handed out before, comes after every anchor handed out before, and is the only anchor added. |
| Numbering.AnchorsIncrease | minihtml.go:95-102 | A run of headings below level six receives strictly increasing, hence distinct, anchors. |
| Numbering.NumberingExample | minihtml.go:95-102 | Levels 1, 2, 2, 1, 2 from fresh counters give the anchors 1.1, 1.2, 1.3, 2.1, 2.2. |
| Numbering.AnchorIdInjective | minihtml.go:101-102 | Distinct (top, sub) pairs give distinct `header_<top>.<sub>` texts. |
| Nav.HasUpperCase | minihtml.go:135-140 | The scan of a heading text sets `hasUpper` exactly when the text has an upper-case letter. |
| Nav.Link | minihtml.go:141-145 | The `<a>` element for anchor `header_<t>.<j>` showing the text: the bold form when the text has an upper-case letter, the plain form otherwise (its shape is proved by `Nav.LinkShape`). |
| Nav.LinkShape | minihtml.go:141-145 | A link carries `class="bold"` exactly when its text has an upper-case letter; it always points at its own anchor and shows its text. |
| Nav.PairsOrder | minihtml.go:131-147 | For increasing top numbers, the pairs written are strictly increasing in (top, sub) order and are exactly the (top, sub) with sub from 1 to the top's count. |
| Nav.SortedKeys | minihtml.go:120-126 | The sorted keys are strictly increasing and hold exactly the map's keys. |
| Nav.IncreasingUnique | minihtml.go:124-126 | Two strictly increasing sequences with the same members are equal: the sort's result is determined by its input. |
| Nav.CollectKeys | minihtml.go:120-123 | The collected keys are the map's keys, each once. |
| Nav.SortKeys | minihtml.go:124-126 | The sorted slice is in non-decreasing order and a permutation of its input. |
| Nav.InsertKeepsOrder | minihtml.go:124-126 | Inserting a key at its place keeps the slice ordered and adds exactly that key. |
| Nav.SortedIsCanonical | minihtml.go:120-126 | Any ordered permutation of the map's keys is the canonical sorted key sequence. |
| Nav.NavOrder | minihtml.go:119-150 | The nav fragment links every counted (top, sub) pair exactly once, in strictly increasing order. |
| Nav.OrderedKeys | minihtml.go:120-126 | Collecting and sorting gives the canonical sorted key sequence. |
| Nav.TopLinks | minihtml.go:133-147 | The inner loop writes the links for subs 1 to the count of one top number, in order. |
| Nav.BuildNav | minihtml.go:128-150 | The pass writes the nav opening and title, the links of all pairs in order, and the closing `</div>`. |
| Template.Api.constructor | minihtml.go:46-48 | A new `Api` has an empty template map. |
| Template.Api.ParameterToString | minihtml.go:18-24 | The section's fragments written in order with nothing between them; a missing section gives the empty string. |
| Text.ReplaceAllMembers | minihtml.go:69-75 | After replacing `c` by `rep`, the characters present are those of the line other than `c`, plus those of `rep` when `c` occurred. |
| Text.Escape | minihtml.go:69-75 | An escaped line holds no raw `<` or `>`. |
| Text.EscapeChars | minihtml.go:69-75 | Escaping keeps every character other than `<` and `>`, and adds only characters of the entities. |
| Text.EscapeAllSpaces | minihtml.go:69-75 | A line is all spaces exactly when its escaped form is, and such a line is unchanged by escaping. |
| Text.EscapeContains | minihtml.go:69-75 | For a pattern free of `<`, `>`, `&`, `g`, `l`, `t` and `;`, the escaped line contains it exactly when the line does. |
| Text.Count | minihtml.go:96 | `strings.Count` of one character is positive exactly when the character occurs, and at most the length. |
| Text.TrimSpaceSpec | minihtml.go:178 | `strings.TrimSpace` leaves a non-empty result exactly when the line has non-white-space text; the result has no white space at either end and only characters of the line. |
| Text.NatToString | minihtml.go:101 | `%v` of a count is a non-empty run of decimal digits, with no leading zero. |
| Text.DecimalRoundTrip | minihtml.go:101 | Reading the decimal text of a count gives the count back. |
| Builder.Step | minihtml.go:68-116 | One turn of the loop keeps the index within the lines and the counters valid, and appends at most one fragment to the body without changing the ones already there. |
| Builder.Run | minihtml.go:67-117 | A finished loop has reached the end of the lines with valid counters, and its body extends the starting body. |
| Builder.Convert | minihtml.go:46-153 | What convertToTemplate produces: `Loops` when the loop gets stuck, otherwise the five sections with the loop's body and, as the sole nav fragment, the navigation pass over the final counters and navMap. |
| Builder.ConvertSections | minihtml.go:46-153 | A finished conversion has exactly the five sections head, header, nav, body and footer; head, header and footer are empty and nav holds one fragment. |
| Builder.Turn | minihtml.go:68-116 | One turn on the loop's variables moves them to the state `Step` gives; the template keeps its five sections. |
| Builder.EscapeLine | minihtml.go:69-75 | The two conditional replacements give the escaped line. |
| Builder.BlankTurn | minihtml.go:80-93 | The blank-line branch performs the blank-line turn of `Step`. |
| Builder.HeadingTurn | minihtml.go:95-102 | The heading branch performs the heading turn of `Step`. |
| Builder.NumberHeading | minihtml.go:97-100 | The in-place update of `headings` and `headingsMap` is the counter update `Number`, and keeps the counters valid. |
| Builder.ListTurn | minihtml.go:103-107 | The list branch performs the list turn of `Step`. |
| Builder.CodeTurn | minihtml.go:108-112 | The code branch performs the code turn of `Step`. |
| Builder.PlainTurn | minihtml.go:113-116 | The plain-line branch performs the plain turn of `Step`. |
| Builder.BlankLine | minihtml.go:80-93 | On an empty line past index 0 the index moves on by one; `hasContent` becomes the lookahead's flag; a break (`</p>\n<p>` when a paragraph was open, `\n<p>` otherwise) is appended exactly when the flag holds. |
| Builder.HeadingLine | minihtml.go:95-102 | On a heading line past index 0 the level is the number of asterisks; the counters are updated for it; navMap records the text under the new anchor; the heading element is appended; the text holds no raw angle bracket. |
| Builder.PlainLine | minihtml.go:113-116 | A plain line past index 0 is appended escaped with `<br/>`, so it holds no raw angle bracket, and the index moves on by one. |
| Builder.HeaderLevel | minihtml.go:95-98 | A heading line has at least one asterisk, so `headings[level-1]` is in range. |
| Builder.StepAdvances | minihtml.go:80-116 | Past index 0 every turn advances the index. |
| Builder.FirstLineTests | minihtml.go:76-79 | With the `<p>` prefix, line 0 is never a heading; it is a list line exactly when the line is; it is code exactly when the escaped line has a tab or four spaces. |
| Builder.StepFirst | minihtml.go:76-112 | The turn at index 0 fails to advance exactly when line 0 is four or more spaces and nothing else. |
| Builder.RunFinishes | minihtml.go:67-117 | From any state past index 0 the loop finishes. |
| Builder.ConvertLoops | minihtml.go:67-117 | The conversion loops forever exactly when line 0 is four or more spaces and nothing else; every other input finishes. |
| Builder.StepKeepsNavComplete | minihtml.go:95-102 | Every turn keeps every handed-out anchor recorded in navMap. |
| Builder.NumberKeepsNavComplete | minihtml.go:97-102 | Numbering a heading and recording its text under the new anchor keeps every handed-out anchor recorded. |
| Builder.RunKeepsNavComplete | minihtml.go:67-117 | A finished loop keeps every handed-out anchor recorded. |
| Builder.ConvertNavComplete | minihtml.go:119-150 | Every pair the nav section links has its heading text recorded under its anchor. |
| Builder.ConvertToTemplate | minihtml.go:46-153 | The method reports `loops` exactly when the conversion loops; otherwise its template is the five sections of `Convert`, with the body from the loop and the nav fragment as the sole element of "nav". |

## Left out

- `main` and its flag parsing (minihtml.go:26-38) are command-line glue.
- Opening the file and reading it line by line (minihtml.go:41-62) is I/O.
  `ConvertToTemplate` takes the lines as a parameter.
- The error returns of `convertToTemplate` and `main` are left out. They
  only pass on I/O failures.
- `writeHTML` and `apiTempl` (minihtml.go:156-172, 264-295) are left out:
  template parsing, execution and file creation belong to Go's
  `text/template` and `os` packages.
- Strings are sequences of characters. Go's byte offsets in `isCode`'s
  `range` loop coincide with character positions only for ASCII text, and
  the model uses character positions.
- Nav.HasUpperCase: upper case is `A` to `Z` only; `unicode.IsUpper`
  accepts every upper-case letter.
- The counters are unbounded natural numbers. Go's `int` cannot overflow
  at any realistic heading count.
- `fmt`'s `%v` on a count is modelled as the decimal text of a natural
  number.
- `sort.Slice` is modelled as an insertion sort. Its result is fixed by
  `Nav.SortedIsCanonical`, so the sorting algorithm does not matter.
- The order in which Go ranges over `headingsMap` is left out.
  `Nav.CollectKeys` promises only the multiset of keys, which is all the
  sort needs.
- No literal input of the scanners is proved as its own lemma.
  `Scan.ListScanRun` and `Scan.CodeScanRun` state their behaviour on every
  input.
- Builder.ConvertToTemplate: where minihtml.go repeats the same turn
  forever, the method stops after that turn and returns with `loops` set.
