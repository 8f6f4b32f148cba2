/** The navigation pass of convertToTemplate (minihtml.go:119-150): the
    counted top numbers are collected and sorted, and for every top number,
    in ascending order, one link per sub number from 1 to its count is
    written. A link is bold when the heading text it shows has an upper-case
    letter. */
module Nav {
  import opened Text
  import opened Numbering

  /** `unicode.IsUpper`, for the letters A to Z. */
  predicate IsUpper(c: char) {
    'A' <= c <= 'Z'
  }

  predicate HasUpper(s: string) {
    exists i :: 0 <= i < |s| && IsUpper(s[i])
  }

  /** The scan of a heading text for an upper-case letter (minihtml.go:135-140). */
  method HasUpperCase(s: string) returns (hasUpper: bool)
    ensures hasUpper <==> HasUpper(s)
  {
    hasUpper := false;
    var i := 0;
    while i < |s|
      invariant 0 <= i <= |s|
      invariant hasUpper <==> exists k :: 0 <= k < i && IsUpper(s[k])
    {
      if IsUpper(s[i]) {
        hasUpper := true;
      }
      i := i + 1;
    }
  }

  /** `navMap[id]`, which reads "" for an anchor that was never recorded. */
  function Lookup(navMap: map<string, string>, id: string): string {
    if id in navMap then navMap[id] else ""
  }

  /** `headingsMap[t]`, which reads 0 for a top number never counted. */
  function CountOf(subs: map<nat, nat>, t: nat): nat {
    if t in subs then subs[t] else 0
  }

  /** The link for anchor (t, j) showing `text` (minihtml.go:141-145). */
  function Link(t: nat, j: nat, text: string): string {
    if HasUpper(text) then
      "<a class=\"bold\" href=\"#" + AnchorId(t, j) + "\">" + text + "</a>\n"
    else
      "<a href=\"#" + AnchorId(t, j) + "\">" + text + "</a>\n"
  }

  /** A link carries the bold class exactly when its text has an upper-case
      letter, and it always points at its own anchor and shows its text. */
  lemma LinkShape(t: nat, j: nat, text: string)
    ensures StartsWith(Link(t, j, text), "<a class=\"bold\"") <==> HasUpper(text)
    ensures Contains(Link(t, j, text), "href=\"#" + AnchorId(t, j) + "\">" + text + "</a>\n")
  {
    var id := AnchorId(t, j);
    var tail := "href=\"#" + id + "\">" + text + "</a>\n";
    LinkForms(id, text);
    if HasUpper(text) {
      SuffixContained("<a class=\"bold\" ", tail);
    } else {
      SuffixContained("<a ", tail);
    }
  }

  /** Both forms of a link are an opening followed by the same tail; only
      the bold one starts with the bold class. */
  lemma LinkForms(id: string, text: string)
    ensures var tail := "href=\"#" + id + "\">" + text + "</a>\n";
      && "<a class=\"bold\" href=\"#" + id + "\">" + text + "</a>\n" == "<a class=\"bold\" " + tail
      && "<a href=\"#" + id + "\">" + text + "</a>\n" == "<a " + tail
      && StartsWith("<a class=\"bold\" " + tail, "<a class=\"bold\"")
      && !StartsWith("<a " + tail, "<a class=\"bold\"")
  {
    var tail := "href=\"#" + id + "\">" + text + "</a>\n";
    assert ("<a " + tail)[3] == 'h';
  }

  /** A string contains each of its suffixes. */
  lemma {:induction false} SuffixContained(u: string, x: string)
    ensures Contains(u + x, x)
  {
    if u == [] {
      assert u + x == x;
    } else {
      assert (u + x)[1..] == u[1..] + x;
      SuffixContained(u[1..], x);
    }
  }

  /** The link for one (top, sub) pair, with the text navMap holds for it. */
  function LinkOf(p: (nat, nat), navMap: map<string, string>): string {
    Link(p.0, p.1, Lookup(navMap, AnchorId(p.0, p.1)))
  }

  /** The links for a sequence of pairs, in order. */
  function LinkList(ps: seq<(nat, nat)>, navMap: map<string, string>): seq<string> {
    seq(|ps|, i requires 0 <= i < |ps| => LinkOf(ps[i], navMap))
  }

  function Links(ps: seq<(nat, nat)>, navMap: map<string, string>): string {
    Concat(LinkList(ps, navMap))
  }

  /** The links for two runs of pairs are the links of the first run
      followed by those of the second. */
  lemma LinksJoin(a: seq<(nat, nat)>, b: seq<(nat, nat)>, navMap: map<string, string>)
    ensures Links(a + b, navMap) == Links(a, navMap) + Links(b, navMap)
  {
    assert LinkList(a + b, navMap) == LinkList(a, navMap) + LinkList(b, navMap);
    ConcatJoin(LinkList(a, navMap), LinkList(b, navMap));
  }

  /** The pairs (t, 1) up to (t, n): the inner loop of the pass. */
  function KeyPairs(t: nat, n: nat): (r: seq<(nat, nat)>)
    ensures |r| == n
  {
    if n == 0 then [] else KeyPairs(t, n - 1) + [(t, n)]
  }

  /** The k-th pair of the inner loop is (t, k + 1). */
  lemma {:induction false} KeyPairsAt(t: nat, n: nat)
    ensures forall k :: 0 <= k < n ==> KeyPairs(t, n)[k] == (t, k + 1)
  {
    if n > 0 {
      KeyPairsAt(t, n - 1);
    }
  }

  /** The pairs the pass visits for the given top numbers, in their order. */
  function Pairs(keys: seq<nat>, subs: map<nat, nat>): seq<(nat, nat)> {
    if keys == [] then []
    else Pairs(keys[..|keys| - 1], subs) + KeyPairs(keys[|keys| - 1], CountOf(subs, keys[|keys| - 1]))
  }

  predicate Increasing(s: seq<nat>) {
    forall i, j :: 0 <= i < j < |s| ==> s[i] < s[j]
  }

  predicate NonDecreasing(s: seq<nat>) {
    forall i, j :: 0 <= i < j < |s| ==> s[i] <= s[j]
  }

  /** For increasing top numbers the visited pairs are in strictly increasing
      (top, sub) order, and they are exactly the pairs whose top number is
      listed and whose sub number is between 1 and that top's count. */
  lemma {:induction false} PairsOrder(keys: seq<nat>, subs: map<nat, nat>)
    requires Increasing(keys)
    ensures forall i, j :: 0 <= i < j < |Pairs(keys, subs)| ==> Before(Pairs(keys, subs)[i], Pairs(keys, subs)[j])
    ensures forall p :: p in Pairs(keys, subs) <==> p.0 in keys && 1 <= p.1 <= CountOf(subs, p.0)
  {
    if keys != [] {
      var init, last := keys[..|keys| - 1], keys[|keys| - 1];
      PairsOrder(init, subs);
      var a, b := Pairs(init, subs), KeyPairs(last, CountOf(subs, last));
      KeyPairsAt(last, CountOf(subs, last));
      var r := Pairs(keys, subs);
      assert r == a + b;
      forall p | p in a
        ensures p.0 < last
      {
        var k :| 0 <= k < |init| && init[k] == p.0;
        assert keys[k] == init[k];
      }
      forall i, j | 0 <= i < j < |r|
        ensures Before(r[i], r[j])
      {
        if i < |a| && j >= |a| {
          assert r[i] in a;
          assert r[j] == b[j - |a|];
        } else if i >= |a| {
          assert r[i] == b[i - |a|] && r[j] == b[j - |a|];
        }
      }
      forall p
        ensures p in r <==> p.0 in keys && 1 <= p.1 <= CountOf(subs, p.0)
      {
        assert p.0 in keys <==> p.0 in init || p.0 == last;
        if p.0 == last && 1 <= p.1 <= CountOf(subs, last) {
          assert b[p.1 - 1] == p;
        }
      }
    }
  }

  /** The largest element of a non-empty finite set of numbers. */
  ghost function Largest(s: set<nat>): (m: nat)
    requires s != {}
    ensures m in s && forall x :: x in s ==> x <= m
    decreases s
  {
    var y :| y in s;
    if s - {y} == {} then
      LargerBound(s, y, y);
      y
    else
      var m := Largest(s - {y});
      LargerBound(s, y, m);
      if m < y then y else m
  }

  /** A bound on all elements but `y` and `y` itself bound them all. */
  lemma LargerBound(s: set<nat>, y: nat, m: nat)
    requires y in s && (m == y || m in s)
    requires forall x :: x in s - {y} ==> x <= m
    ensures var big := if m < y then y else m;
      big in s && forall x :: x in s ==> x <= big
  {
    var big := if m < y then y else m;
    forall x | x in s
      ensures x <= big
    {
      if x != y {
        assert x in s - {y};
      }
    }
  }

  /** The elements of `s` in increasing order: what sort.Slice leaves in
      `keys` (minihtml.go:120-126). */
  ghost function SortedKeys(s: set<nat>): (r: seq<nat>)
    ensures Increasing(r) && forall x :: x in r <==> x in s
    decreases s
  {
    if s == {} then []
    else
      var m := Largest(s);
      SortedKeys(s - {m}) + [m]
  }

  /** An increasing sequence is fixed by its elements. */
  lemma {:induction false} IncreasingUnique(a: seq<nat>, b: seq<nat>)
    requires Increasing(a) && Increasing(b)
    requires forall x :: x in a <==> x in b
    ensures a == b
    decreases |a|
  {
    assert a == [] <==> b == [] by {
      if a != [] {
        assert a[0] in a;
      }
      if b != [] {
        assert b[0] in b;
      }
    }
    if a != [] {
      IncreasingTail(a, b);
      IncreasingUnique(a[1..], b[1..]);
      assert a == [a[0]] + a[1..];
      assert b == [b[0]] + b[1..];
    }
  }

  /** Two increasing sequences with the same elements start alike, and
      their tails have the same elements. */
  lemma IncreasingTail(a: seq<nat>, b: seq<nat>)
    requires Increasing(a) && Increasing(b) && a != [] && b != []
    requires forall x :: x in a <==> x in b
    ensures a[0] == b[0]
    ensures Increasing(a[1..]) && Increasing(b[1..])
    ensures forall x :: x in a[1..] <==> x in b[1..]
  {
    IncreasingLeast(a);
    IncreasingLeast(b);
    assert a[0] in b && b[0] in a;
    forall x
      ensures x in a[1..] <==> x in b[1..]
    {
      IncreasingLeast(a);
      IncreasingLeast(b);
    }
  }

  /** The head of an increasing sequence is its least element, and the
      tail holds exactly the other elements. */
  lemma IncreasingLeast(a: seq<nat>)
    requires Increasing(a) && a != []
    ensures forall x :: x in a ==> a[0] <= x
    ensures forall x :: x in a[1..] <==> x in a && x != a[0]
  {
  }

  /** The map's keys in the order the map yields them: any order
      (minihtml.go:120-123). */
  method CollectKeys(m: map<nat, nat>) returns (keys: seq<nat>)
    ensures multiset(keys) == multiset(m.Keys)
  {
    keys := [];
    var rest := m.Keys;
    while rest != {}
      invariant rest <= m.Keys
      invariant multiset(keys) + multiset(rest) == multiset(m.Keys)
      decreases rest
    {
      var k :| k in rest;
      assert multiset(rest) == multiset(rest - {k}) + multiset{k};
      keys := keys + [k];
      rest := rest - {k};
    }
  }

  /** sort.Slice with `keys[i] < keys[j]` (minihtml.go:124-126), as an
      insertion of each key into an ordered sequence. */
  method SortKeys(keys: seq<nat>) returns (sorted: seq<nat>)
    ensures NonDecreasing(sorted) && multiset(sorted) == multiset(keys)
  {
    sorted := [];
    var i := 0;
    while i < |keys|
      invariant 0 <= i <= |keys|
      invariant NonDecreasing(sorted) && multiset(sorted) == multiset(keys[..i])
    {
      var x := keys[i];
      var j := 0;
      while j < |sorted| && sorted[j] < x
        invariant 0 <= j <= |sorted|
        invariant forall k :: 0 <= k < j ==> sorted[k] < x
      {
        j := j + 1;
      }
      InsertKeepsOrder(sorted, j, x);
      assert keys[..i + 1] == keys[..i] + [x];
      sorted := sorted[..j] + [x] + sorted[j..];
      i := i + 1;
    }
    assert keys[..i] == keys;
  }

  /** Inserting `x` after the keys below it and before the rest keeps the
      sequence ordered and adds exactly `x`. */
  lemma InsertKeepsOrder(s: seq<nat>, j: nat, x: nat)
    requires NonDecreasing(s) && j <= |s|
    requires forall k :: 0 <= k < j ==> s[k] < x
    requires j < |s| ==> x <= s[j]
    ensures NonDecreasing(s[..j] + [x] + s[j..])
    ensures multiset(s[..j] + [x] + s[j..]) == multiset(s) + multiset{x}
  {
    InsertOrdered(s, j, x);
    assert s == s[..j] + s[j..];
  }

  lemma InsertOrdered(s: seq<nat>, j: nat, x: nat)
    requires NonDecreasing(s) && j <= |s|
    requires forall k :: 0 <= k < j ==> s[k] < x
    requires j < |s| ==> x <= s[j]
    ensures NonDecreasing(s[..j] + [x] + s[j..])
  {
  }

  /** A sorted sequence holding each key of a set once is the set's keys in
      increasing order. */
  lemma SortedIsCanonical(a: seq<nat>, s: set<nat>)
    requires NonDecreasing(a) && multiset(a) == multiset(s)
    ensures a == SortedKeys(s)
  {
    forall i, j | 0 <= i < j < |a|
      ensures a[i] < a[j]
    {
      Copies(a, i, j);
    }
    forall x
      ensures x in a <==> x in s
    {
      assert x in a <==> x in multiset(a);
    }
    IncreasingUnique(a, SortedKeys(s));
  }

  lemma Copies(a: seq<nat>, i: nat, j: nat)
    requires i < j < |a|
    ensures multiset(a)[a[i]] >= if a[i] == a[j] then 2 else 1
  {
    assert a[..j][i] == a[i];
    assert multiset(a[..j])[a[i]] >= 1;
    assert a == a[..j] + [a[j]] + a[j + 1..];
  }

  /** The opening of the side navigation block and its title. */
  const NavOpen: string := "<div class=\"sidenav\">\n"
  const NavTitle: string := "<h3>Navigation</h3>\n"

  /** The nav fragment for the final counters and navMap. */
  ghost function NavFragment(subs: map<nat, nat>, navMap: map<string, string>): string {
    NavOpen + NavTitle + Links(Pairs(SortedKeys(subs.Keys), subs), navMap) + "</div>"
  }

  /** The nav fragment links every counted (top, sub) pair exactly once, in
      strictly increasing (top, sub) order. */
  lemma NavOrder(subs: map<nat, nat>)
    ensures forall i, j :: 0 <= i < j < |Pairs(SortedKeys(subs.Keys), subs)| ==>
      Before(Pairs(SortedKeys(subs.Keys), subs)[i], Pairs(SortedKeys(subs.Keys), subs)[j])
    ensures forall p :: p in Pairs(SortedKeys(subs.Keys), subs) <==>
      p.0 in subs && 1 <= p.1 <= subs[p.0]
  {
    PairsOrder(SortedKeys(subs.Keys), subs);
  }

  /** The top numbers collected from the map and sorted (minihtml.go:120-126). */
  method OrderedKeys(subs: map<nat, nat>) returns (keys: seq<nat>)
    ensures keys == SortedKeys(subs.Keys)
  {
    keys := CollectKeys(subs);
    keys := SortKeys(keys);
    SortedIsCanonical(keys, subs.Keys);
  }

  /** The navigation pass (minihtml.go:119-150). */
  method BuildNav(subs: map<nat, nat>, navMap: map<string, string>) returns (nav: string)
    ensures nav == NavFragment(subs, navMap)
  {
    var keys := OrderedKeys(subs);
    var b := NavOpen;
    b := b + NavTitle;
    var i := 0;
    assert Links(Pairs(keys[..0], subs), navMap) == "";
    while i < |keys|
      invariant 0 <= i <= |keys|
      invariant b == NavOpen + NavTitle + Links(Pairs(keys[..i], subs), navMap)
    {
      var links := TopLinks(keys[i], CountOf(subs, keys[i]), navMap);
      NavStep(keys, i, subs, navMap);
      Append3(NavOpen + NavTitle, Links(Pairs(keys[..i], subs), navMap), links);
      b := b + links;
      i := i + 1;
    }
    NavEnd(keys, subs, navMap);
    nav := b + "</div>";
  }

  /** String concatenation regroups; kept apart from the loop, whose
      context makes the solver slow to see it. */
  lemma Append3(a: string, b: string, c: string)
    ensures (a + b) + c == a + (b + c)
  {
  }

  lemma NavEnd(keys: seq<nat>, subs: map<nat, nat>, navMap: map<string, string>)
    requires keys == SortedKeys(subs.Keys)
    ensures NavOpen + NavTitle + Links(Pairs(keys[..|keys|], subs), navMap) + "</div>" == NavFragment(subs, navMap)
  {
    assert keys[..|keys|] == keys;
  }

  /** One turn of the outer loop adds the links of the next top number. */
  lemma NavStep(keys: seq<nat>, i: nat, subs: map<nat, nat>, navMap: map<string, string>)
    requires i < |keys|
    ensures Links(Pairs(keys[..i + 1], subs), navMap)
      == Links(Pairs(keys[..i], subs), navMap) + Links(KeyPairs(keys[i], CountOf(subs, keys[i])), navMap)
  {
    PairsStep(keys, i, subs);
    LinksJoin(Pairs(keys[..i], subs), KeyPairs(keys[i], CountOf(subs, keys[i])), navMap);
  }

  /** The inner loop of the pass (minihtml.go:133-147): the links for
      (t, 1) up to (t, count), each bold when its text has an upper-case
      letter. */
  method TopLinks(t: nat, count: nat, navMap: map<string, string>) returns (links: string)
    ensures links == Links(KeyPairs(t, count), navMap)
  {
    links := "";
    var j := 1;
    while j < count + 1
      invariant 1 <= j <= count + 1
      invariant links == Links(KeyPairs(t, j - 1), navMap)
    {
      var index := AnchorId(t, j);
      var text := Lookup(navMap, index);
      var hasUpper := HasUpperCase(text);
      var link;
      if hasUpper {
        link := "<a class=\"bold\" href=\"#" + index + "\">" + text + "</a>\n";
      } else {
        link := "<a href=\"#" + index + "\">" + text + "</a>\n";
      }
      assert link == LinkOf((t, j), navMap);
      TopLinksStep(t, j, navMap);
      links := links + link;
      j := j + 1;
    }
  }

  /** One turn of the inner loop adds the link for (t, j). */
  lemma TopLinksStep(t: nat, j: nat, navMap: map<string, string>)
    requires j >= 1
    ensures Links(KeyPairs(t, j), navMap) == Links(KeyPairs(t, j - 1), navMap) + LinkOf((t, j), navMap)
  {
    LinksJoin(KeyPairs(t, j - 1), [(t, j)], navMap);
    LinksOne((t, j), navMap);
  }

  lemma LinksOne(p: (nat, nat), navMap: map<string, string>)
    ensures Links([p], navMap) == LinkOf(p, navMap)
  {
    assert LinkList([p], navMap) == [LinkOf(p, navMap)];
    assert Concat([LinkOf(p, navMap)]) == Concat([]) + LinkOf(p, navMap);
  }

  lemma PairsStep(keys: seq<nat>, i: nat, subs: map<nat, nat>)
    requires i < |keys|
    ensures Pairs(keys[..i + 1], subs) == Pairs(keys[..i], subs) + KeyPairs(keys[i], CountOf(subs, keys[i]))
  {
    assert keys[..i + 1][..i] == keys[..i];
  }
}
