/** Heading numbering (minihtml.go:95-102). The converter keeps `headings`,
    six running counters indexed by heading level minus one, and
    `headingsMap`, which counts for each value of the first counter (the
    "top" number) the headings seen while it held that value. A heading's
    anchor is `header_<top>.<sub>`, where `sub` is the count kept for the
    current top number. The counters only ever grow from zero, so they are
    natural numbers here. */
module Numbering {
  import opened Text

  /** The numbering state: `headings` and `headingsMap`. */
  datatype Counters = Counters(headings: seq<nat>, subs: map<nat, nat>)

  /** Both counters as convertToTemplate creates them (minihtml.go:54-55). */
  function Start(): (c: Counters)
    ensures Valid(c) && c.subs == map[] && c.headings[0] == 0
  {
    Counters([0, 0, 0, 0, 0, 0], map[])
  }

  /** Six level counters; every counted top number is at most the current
      one and has been counted at least once. */
  predicate Valid(c: Counters) {
    && |c.headings| == 6
    && forall t :: t in c.subs ==> t <= c.headings[0] && c.subs[t] >= 1
  }

  /** The current top number, `headings[0]`. */
  function Top(c: Counters): nat
    requires |c.headings| == 6
  {
    c.headings[0]
  }

  /** `headingsMap[headings[0]]`, which reads 0 for a top number not yet counted. */
  function Sub(c: Counters): nat
    requires |c.headings| == 6
  {
    if Top(c) in c.subs then c.subs[Top(c)] else 0
  }

  /** The (top, sub) pair a heading is given once the counters are updated. */
  function Anchor(c: Counters): (nat, nat)
    requires |c.headings| == 6
  {
    (Top(c), Sub(c))
  }

  /** The counter update for a heading of `level` asterisks
      (minihtml.go:96-100): below six, the level's own counter and the
      current top number's count go up by one; from six on nothing changes. */
  function Number(c: Counters, level: nat): (r: Counters)
    requires |c.headings| == 6 && level >= 1
    ensures |r.headings| == 6
    ensures level >= 6 ==> r == c
    ensures level < 6 ==> r.headings[level - 1] == c.headings[level - 1] + 1
    ensures level < 6 ==> forall k :: 0 <= k < 6 && k != level - 1 ==> r.headings[k] == c.headings[k]
    ensures level < 6 ==> r.subs.Keys == c.subs.Keys + {r.headings[0]}
  {
    if level < 6 then
      var h := c.headings[level - 1 := c.headings[level - 1] + 1];
      Counters(h, c.subs[h[0] := (if h[0] in c.subs then c.subs[h[0]] else 0) + 1])
    else c
  }

  /** The pairs (top, sub) handed out so far: for every counted top number,
      the subs from 1 to its count. */
  ghost function Covered(c: Counters): set<(nat, nat)> {
    set t, s | t in c.subs && 1 <= s <= c.subs[t] :: (t, s)
  }

  /** Pair order: by top number, then by sub number. */
  predicate Before(p: (nat, nat), q: (nat, nat)) {
    p.0 < q.0 || (p.0 == q.0 && p.1 < q.1)
  }

  /** What a heading does to the anchor: a level-1 heading opens the next
      top number with sub 1; levels 2 to 5 keep the top number and take the
      next sub; six asterisks or more leave the counters as they are. */
  lemma NumberAnchor(c: Counters, level: nat)
    requires Valid(c) && level >= 1
    ensures level == 1 ==> Anchor(Number(c, level)) == (Top(c) + 1, 1)
    ensures 2 <= level < 6 ==> Anchor(Number(c, level)) == (Top(c), Sub(c) + 1)
    ensures level >= 6 ==> Number(c, level) == c
    ensures Valid(Number(c, level))
  {
  }

  /** Each numbered heading takes a pair not handed out before, later than
      every pair handed out before, and adds exactly that pair: anchors are
      unique within one conversion and come in increasing order. */
  lemma NumberCovers(c: Counters, level: nat)
    requires Valid(c) && 1 <= level < 6
    ensures Anchor(Number(c, level)) !in Covered(c)
    ensures forall p :: p in Covered(c) ==> Before(p, Anchor(Number(c, level)))
    ensures Covered(Number(c, level)) == Covered(c) + {Anchor(Number(c, level))}
  {
  }

  /** The anchors a run of headings of the given levels receives from `c`. */
  function Anchors(c: Counters, levels: seq<nat>): (r: seq<(nat, nat)>)
    requires |c.headings| == 6 && forall i :: 0 <= i < |levels| ==> levels[i] >= 1
    ensures |r| == |levels|
    decreases |levels|
  {
    if levels == [] then []
    else
      var c' := Number(c, levels[0]);
      [Anchor(c')] + Anchors(c', levels[1..])
  }

  /** Headings below six asterisks receive strictly increasing anchors, so
      no two of them share one. */
  lemma {:induction false} AnchorsIncrease(c: Counters, levels: seq<nat>)
    requires Valid(c) && forall i :: 0 <= i < |levels| ==> 1 <= levels[i] < 6
    ensures forall i, j :: 0 <= i < j < |levels| ==> Before(Anchors(c, levels)[i], Anchors(c, levels)[j])
    ensures forall i, p :: 0 <= i < |levels| && p in Covered(c) ==> Before(p, Anchors(c, levels)[i])
    decreases |levels|
  {
    if levels != [] {
      var c' := Number(c, levels[0]);
      NumberCovers(c, levels[0]);
      NumberAnchor(c, levels[0]);
      AnchorsIncrease(c', levels[1..]);
      var r := Anchors(c, levels);
      assert r[1..] == Anchors(c', levels[1..]);
      forall i, j | 0 <= i < j < |levels|
        ensures Before(r[i], r[j])
      {
        if i == 0 {
          assert r[j] == Anchors(c', levels[1..])[j - 1];
          assert r[0] in Covered(c');
        }
      }
      forall i, p | 0 <= i < |levels| && p in Covered(c)
        ensures Before(p, r[i])
      {
        if i > 0 {
          assert r[i] == Anchors(c', levels[1..])[i - 1];
          assert p in Covered(c');
        }
      }
    }
  }

  /** Levels 1, 2, 2, 1, 2 from fresh counters number as 1.1, 1.2, 1.3,
      2.1, 2.2: a level-1 heading opens a new top number and the other
      headings count on under it. */
  lemma NumberingExample()
    ensures Anchors(Start(), [1, 2, 2, 1, 2]) == [(1, 1), (1, 2), (1, 3), (2, 1), (2, 2)]
  {
    var c0 := Start();
    var c1 := Number(c0, 1);
    NumberAnchor(c0, 1);
    var c2 := Number(c1, 2);
    NumberAnchor(c1, 2);
    ExampleTail(c2);
    assert Anchors(c1, [2, 2, 1, 2]) == [(1, 2)] + Anchors(c2, [2, 1, 2]);
  }

  /** The last three headings of the example, from counters at 1.2. */
  lemma ExampleTail(c: Counters)
    requires Valid(c) && Anchor(c) == (1, 2)
    ensures Anchors(c, [2, 1, 2]) == [(1, 3), (2, 1), (2, 2)]
  {
  }

  /** The anchor text `header_<top>.<sub>` (minihtml.go:101-102, 134). */
  function AnchorId(t: nat, s: nat): (r: string)
    ensures StartsWith(r, "header_")
  {
    "header_" + NatToString(t) + "." + NatToString(s)
  }

  /** Distinct pairs give distinct anchor texts: the text is a faithful key
      for navMap. */
  lemma AnchorIdInjective(t: nat, s: nat, t': nat, s': nat)
    requires AnchorId(t, s) == AnchorId(t', s')
    ensures t == t' && s == s'
  {
    AnchorIdTail(t, s);
    AnchorIdTail(t', s');
    SplitAtDot(NatToString(t), NatToString(s), NatToString(t'), NatToString(s'));
    DecimalRoundTrip(t);
    DecimalRoundTrip(t');
    DecimalRoundTrip(s);
    DecimalRoundTrip(s');
  }

  lemma AnchorIdTail(t: nat, s: nat)
    ensures AnchorId(t, s)[7..] == NatToString(t) + "." + NatToString(s)
  {
  }

  /** Two digit strings followed by a dot split a string at the same place. */
  lemma SplitAtDot(x: string, y: string, u: string, v: string)
    requires forall i :: 0 <= i < |x| ==> '0' <= x[i] <= '9'
    requires forall i :: 0 <= i < |u| ==> '0' <= u[i] <= '9'
    requires x + "." + y == u + "." + v
    ensures x == u && y == v
  {
    var w := x + "." + y;
    DigitRunBeforeDot(x, y);
    DigitRunBeforeDot(u, v);
    assert x == w[..|x|] == u;
    assert y == w[|x| + 1..] == v;
  }

  /** The length of the run of digits that starts `w`. */
  function DigitRun(w: string): nat {
    if w == [] || !('0' <= w[0] <= '9') then 0 else 1 + DigitRun(w[1..])
  }

  lemma {:induction false} DigitRunBeforeDot(x: string, y: string)
    requires forall i :: 0 <= i < |x| ==> '0' <= x[i] <= '9'
    ensures DigitRun(x + "." + y) == |x|
  {
    if x != [] {
      assert (x + "." + y)[1..] == x[1..] + "." + y;
      DigitRunBeforeDot(x[1..], y);
    }
  }
}
