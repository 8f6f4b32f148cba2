/** String primitives of the converter: the calls into Go's standard
    library that minihtml.go makes on a `string` (strings.Contains,
    ReplaceAll, Count and TrimSpace, and fmt's `%v` on a non-negative int),
    with the helpers they are defined by. Strings are sequences of
    characters. */
module Text {

  /** `t` is a prefix of `s`: the test `Contains` makes at each position. */
  predicate StartsWith(s: string, t: string) {
    |t| <= |s| && s[..|t|] == t
  }

  /** `strings.Contains(s, t)`: `t` starts at some position of `s`. */
  predicate Contains(s: string, t: string)
    decreases |s|
  {
    StartsWith(s, t) || (|s| > 0 && Contains(s[1..], t))
  }

  /** `strings.ReplaceAll(s, c, rep)` for a one-character pattern `c`:
      every occurrence of `c` becomes `rep`, every other character stays. */
  function ReplaceAll(s: string, c: char, rep: string): string
  {
    if s == [] then []
    else (if s[0] == c then rep else [s[0]]) + ReplaceAll(s[1..], c, rep)
  }

  /** The characters of `ReplaceAll(s, c, rep)`: those of `s` other than
      `c`, and those of `rep` when `s` held a `c`. */
  lemma {:induction false} ReplaceAllMembers(s: string, c: char, rep: string)
    ensures forall x :: x in ReplaceAll(s, c, rep) <==> (x in s && x != c) || (c in s && x in rep)
  {
    if s != [] {
      ReplaceAllMembers(s[1..], c, rep);
      assert s == [s[0]] + s[1..];
    }
  }

  /** The converter's HTML escaping (minihtml.go:69-75 and 193-198):
      first `>` becomes `&gt;`, then `<` becomes `&lt;`. */
  function Escape(s: string): (r: string)
    ensures NoAngle(r)
  {
    ReplaceAllMembers(s, '>', "&gt;");
    ReplaceAllMembers(ReplaceAll(s, '>', "&gt;"), '<', "&lt;");
    ReplaceAll(ReplaceAll(s, '>', "&gt;"), '<', "&lt;")
  }

  /** Escaping keeps every character other than the angle brackets, and adds
      only characters of the entities. */
  lemma EscapeChars(s: string)
    ensures forall x :: x in s && x != '<' && x != '>' ==> x in Escape(s)
    ensures forall x :: x in Escape(s) && x !in "&gtl;" ==> x in s
  {
    var a := ReplaceAll(s, '>', "&gt;");
    ReplaceAllMembers(s, '>', "&gt;");
    ReplaceAllMembers(a, '<', "&lt;");
    assert Escape(s) == ReplaceAll(a, '<', "&lt;");
  }

  /** No raw angle bracket in `s`. */
  predicate NoAngle(s: string) {
    '<' !in s && '>' !in s
  }

  /** `strings.Count(s, c)` for a one-character pattern `c`. */
  function Count(s: string, c: char): (n: nat)
    ensures n > 0 <==> c in s
    ensures n <= |s|
  {
    if s == [] then 0 else (if s[0] == c then 1 else 0) + Count(s[1..], c)
  }

  /** The pieces of `ss` written one after another, as a strings.Builder
      collects them. */
  function Concat(ss: seq<string>): string {
    if ss == [] then "" else Concat(ss[..|ss| - 1]) + ss[|ss| - 1]
  }

  lemma ConcatAppend(ss: seq<string>, s: string)
    ensures Concat(ss + [s]) == Concat(ss) + s
  {
  }

  /** Concatenation distributes over joining two runs of pieces. */
  lemma {:induction false} ConcatJoin(a: seq<string>, b: seq<string>)
    ensures Concat(a + b) == Concat(a) + Concat(b)
    decreases |b|
  {
    if b == [] {
      assert a + b == a;
    } else {
      var init, last := b[..|b| - 1], b[|b| - 1];
      assert a + b == (a + init) + [last];
      assert b == init + [last];
      ConcatAppend(a + init, last);
      ConcatJoin(a, init);
    }
  }

  /** Only the space character ' ' (the test isCode performs). */
  predicate AllSpaces(s: string) {
    forall i :: 0 <= i < |s| ==> s[i] == ' '
  }

  /** Go's `unicode.IsSpace`: the ASCII blanks \t \n \v \f \r and ' ',
      U+0085, U+00A0 and the other White_Space code points. */
  predicate IsSpace(ch: char) {
    var n := ch as int;
    n == 0x20 || (0x09 <= n <= 0x0D) || n == 0x85 || n == 0xA0 || n == 0x1680
    || (0x2000 <= n <= 0x200A) || n == 0x2028 || n == 0x2029 || n == 0x202F
    || n == 0x205F || n == 0x3000
  }

  /** `s` holds a character that is not white space. */
  predicate HasText(s: string) {
    exists j :: 0 <= j < |s| && !IsSpace(s[j])
  }

  /** Drops the leading white space of `s`. */
  function TrimLeft(s: string): string {
    if |s| > 0 && IsSpace(s[0]) then TrimLeft(s[1..]) else s
  }

  /** Drops the trailing white space of `s`. */
  function TrimRight(s: string): string {
    if |s| > 0 && IsSpace(s[|s| - 1]) then TrimRight(s[..|s| - 1]) else s
  }

  /** `strings.TrimSpace(s)`. */
  function TrimSpace(s: string): string {
    TrimRight(TrimLeft(s))
  }

  /** TrimLeft removes exactly the leading white space. */
  lemma {:induction false} TrimLeftSpec(s: string)
    ensures |TrimLeft(s)| <= |s| && TrimLeft(s) == s[|s| - |TrimLeft(s)|..]
    ensures forall i :: 0 <= i < |s| - |TrimLeft(s)| ==> IsSpace(s[i])
    ensures |TrimLeft(s)| > 0 ==> !IsSpace(TrimLeft(s)[0])
  {
    if |s| > 0 && IsSpace(s[0]) {
      TrimLeftSpec(s[1..]);
    }
  }

  /** TrimRight removes exactly the trailing white space. */
  lemma {:induction false} TrimRightSpec(s: string)
    ensures |TrimRight(s)| <= |s| && TrimRight(s) == s[..|TrimRight(s)|]
    ensures forall i :: |TrimRight(s)| <= i < |s| ==> IsSpace(s[i])
    ensures |TrimRight(s)| > 0 ==> !IsSpace(TrimRight(s)[|TrimRight(s)| - 1])
  {
    if |s| > 0 && IsSpace(s[|s| - 1]) {
      TrimRightSpec(s[..|s| - 1]);
    }
  }

  /** TrimSpace keeps a piece of `s` that neither starts nor ends with
      white space; it is empty exactly when `s` is white space only. */
  lemma TrimSpaceSpec(s: string)
    ensures |TrimSpace(s)| > 0 <==> HasText(s)
    ensures |TrimSpace(s)| > 0 ==> !IsSpace(TrimSpace(s)[0]) && !IsSpace(TrimSpace(s)[|TrimSpace(s)| - 1])
    ensures forall x :: x in TrimSpace(s) ==> x in s
  {
    var t := TrimLeft(s);
    TrimLeftSpec(s);
    TrimRightSpec(t);
    assert forall i :: |s| - |t| <= i < |s| ==> s[i] == t[i - (|s| - |t|)];
  }

  function Digit(d: nat): (c: char)
    requires d < 10
    ensures '0' <= c <= '9' && c as int - '0' as int == d
  {
    "0123456789"[d]
  }

  /** fmt's `%v` of a non-negative int: its decimal digits. */
  function NatToString(n: nat): (r: string)
    ensures |r| > 0 && forall i :: 0 <= i < |r| ==> '0' <= r[i] <= '9'
    ensures r[0] == '0' ==> n == 0 && r == "0"
  {
    if n < 10 then [Digit(n)] else NatToString(n / 10) + [Digit(n % 10)]
  }

  /** The value of a string of decimal digits; the reading partner of NatToString. */
  function DecimalValue(s: string): nat
    requires forall i :: 0 <= i < |s| ==> '0' <= s[i] <= '9'
  {
    if s == [] then 0
    else 10 * DecimalValue(s[..|s| - 1]) + (s[|s| - 1] as int - '0' as int)
  }

  /** Formatting a number and reading it back gives the number. */
  lemma {:induction false} DecimalRoundTrip(n: nat)
    ensures DecimalValue(NatToString(n)) == n
  {
    if n >= 10 {
      DecimalRoundTrip(n / 10);
      var s := NatToString(n);
      assert s[..|s| - 1] == NatToString(n / 10);
    }
  }

  /** A match of `t` in `s` lies inside `s`, and it contains `t`'s first character. */
  lemma {:induction false} ContainsBounds(s: string, t: string)
    requires Contains(s, t)
    ensures |t| <= |s|
    ensures |t| > 0 ==> t[0] in s
  {
    if !StartsWith(s, t) {
      ContainsBounds(s[1..], t);
    } else if |t| > 0 {
      assert s[0] == t[0];
    }
  }

  /** A one-character pattern occurs exactly when the character does. */
  lemma {:induction false} ContainsChar(s: string, c: char)
    ensures Contains(s, [c]) <==> c in s
  {
    if Contains(s, [c]) {
      ContainsBounds(s, [c]);
    }
    if c in s {
      var i :| 0 <= i < |s| && s[i] == c;
      ContainsAt(s, [c], i);
    }
  }

  /** A match at position `i` is a match. */
  lemma {:induction false} ContainsAt(s: string, t: string, i: nat)
    requires i + |t| <= |s| && s[i..i + |t|] == t
    ensures Contains(s, t)
  {
    if i > 0 {
      assert s[1..][i - 1..i - 1 + |t|] == s[i..i + |t|];
      ContainsAt(s[1..], t, i - 1);
    }
  }

  /** A two-character pattern occurs exactly when its characters stand side
      by side somewhere. */
  lemma {:induction false} ContainsPair(s: string, a: char, b: char)
    ensures Contains(s, [a, b]) <==> exists i :: 0 <= i < |s| - 1 && s[i] == a && s[i + 1] == b
    decreases |s|
  {
    if |s| > 0 {
      ContainsPair(s[1..], a, b);
      if |s| >= 2 && s[0] == a && s[1] == b {
        assert s[..2] == [a, b];
      }
      if StartsWith(s, [a, b]) {
        assert s[..2][0] == a && s[..2][1] == b;
      }
      if exists i :: 0 <= i < |s| - 1 && s[i] == a && s[i + 1] == b {
        var i :| 0 <= i < |s| - 1 && s[i] == a && s[i + 1] == b;
        if i > 0 {
          assert s[1..][i - 1] == a && s[1..][i] == b;
        }
      }
      if exists i :: 0 <= i < |s[1..]| - 1 && s[1..][i] == a && s[1..][i + 1] == b {
        var i :| 0 <= i < |s[1..]| - 1 && s[1..][i] == a && s[1..][i + 1] == b;
        assert s[i + 1] == a && s[i + 2] == b;
      }
    }
  }

  /** A string of spaces only holds four consecutive spaces exactly when it is
      at least four long. */
  lemma AllSpacesFourSpaces(s: string)
    requires AllSpaces(s)
    ensures Contains(s, "    ") <==> |s| >= 4
  {
  }

  /** A prefix none of whose characters starts `t` cannot hold a match of `t`. */
  lemma {:induction false} ContainsSkip(u: string, x: string, t: string)
    requires |t| > 0 && t[0] !in u
    ensures Contains(u + x, t) <==> Contains(x, t)
  {
    if u != [] {
      assert (u + x)[1..] == u[1..] + x;
      assert !StartsWith(u + x, t) by { assert (u + x)[0] == u[0]; }
      ContainsSkip(u[1..], x, t);
    } else {
      assert u + x == x;
    }
  }

  /** ReplaceAll keeps the matches of a pattern that avoids both the replaced
      character and the characters of a non-empty replacement. */
  lemma {:induction false} ReplaceAllStartsWith(s: string, c: char, rep: string, t: string)
    requires |rep| > 0 && c !in t
    requires forall x :: x in t ==> x !in rep
    ensures StartsWith(ReplaceAll(s, c, rep), t) <==> StartsWith(s, t)
  {
    var r := ReplaceAll(s, c, rep);
    if t == [] {
    } else if s == [] {
    } else if s[0] == c {
      assert r[0] == rep[0];
      assert t[0] in t;
    } else {
      ReplaceAllStartsWith(s[1..], c, rep, t[1..]);
      assert r == [s[0]] + ReplaceAll(s[1..], c, rep);
      StartsWithCons(r, t);
      StartsWithCons(s, t);
    }
  }

  lemma StartsWithCons(s: string, t: string)
    requires |s| > 0 && |t| > 0
    ensures StartsWith(s, t) <==> s[0] == t[0] && StartsWith(s[1..], t[1..])
  {
  }

  /** ReplaceAll neither creates nor destroys a match of such a pattern. */
  lemma {:induction false} ReplaceAllContains(s: string, c: char, rep: string, t: string)
    requires |rep| > 0 && |t| > 0 && c !in t
    requires forall x :: x in t ==> x !in rep
    ensures Contains(ReplaceAll(s, c, rep), t) <==> Contains(s, t)
  {
    if s != [] {
      ReplaceAllContains(s[1..], c, rep, t);
      if s[0] == c {
        assert t[0] in t;
        ContainsSkip(rep, ReplaceAll(s[1..], c, rep), t);
        assert !StartsWith(s, t) by { assert s[0] != t[0]; }
      } else {
        var r := ReplaceAll(s, c, rep);
        assert r[1..] == ReplaceAll(s[1..], c, rep);
        ReplaceAllStartsWith(s, c, rep, t);
      }
    }
  }

  /** Escaping neither creates nor destroys a match of a pattern made of
      characters other than `<`, `>`, `&`, `g`, `l`, `t` and `;`. */
  lemma EscapeContains(s: string, t: string)
    requires |t| > 0 && forall x :: x in t ==> x !in "<>&glt;"
    ensures Contains(Escape(s), t) <==> Contains(s, t)
  {
    ReplaceAllContains(s, '>', "&gt;", t);
    ReplaceAllContains(ReplaceAll(s, '>', "&gt;"), '<', "&lt;", t);
  }

  /** Escaping keeps the first two characters' "is a space" status and the
      length's "at least two" status. */
  lemma EscapeHead(s: string)
    ensures |Escape(s)| == 0 <==> |s| == 0
    ensures |s| > 0 ==> (Escape(s)[0] == ' ' <==> s[0] == ' ')
    ensures |s| > 0 && s[0] == ' ' ==>
      Escape(s)[1..] == Escape(s[1..]) && (|Escape(s)| >= 2 <==> |s| >= 2)
    ensures |s| >= 2 && s[0] == ' ' ==> (Escape(s)[1] == ' ' <==> s[1] == ' ')
  {
  }

  /** Escaping keeps a string of spaces as it is and keeps any other string
      from being all spaces. */
  lemma EscapeAllSpaces(s: string)
    ensures AllSpaces(Escape(s)) <==> AllSpaces(s)
    ensures AllSpaces(s) ==> Escape(s) == s
  {
    var e := Escape(s);
    EscapeChars(s);
    if AllSpaces(s) {
      EscapeOfPlain(s);
      assert forall i :: 0 <= i < |e| ==> e[i] in s;
    } else {
      var i :| 0 <= i < |s| && s[i] != ' ';
      if s[i] in "<>" {
        var a := ReplaceAll(s, '>', "&gt;");
        ReplaceAllMembers(s, '>', "&gt;");
        ReplaceAllMembers(a, '<', "&lt;");
        assert '&' in e;
      } else {
        assert s[i] in e;
      }
    }
  }

  /** A string without angle brackets is its own escape. */
  lemma {:induction false} EscapeOfPlain(s: string)
    requires NoAngle(s)
    ensures Escape(s) == s
  {
    ReplaceAllOfAbsent(s, '>', "&gt;");
    ReplaceAllOfAbsent(s, '<', "&lt;");
  }

  lemma {:induction false} ReplaceAllOfAbsent(s: string, c: char, rep: string)
    requires c !in s
    ensures ReplaceAll(s, c, rep) == s
  {
    if s != [] {
      assert s[0] != c;
      assert s == [s[0]] + s[1..];
      ReplaceAllOfAbsent(s[1..], c, rep);
    }
  }
}
