/**
 The functions of Go's `strings` package that the operator relies on, on sequences of characters.
 `Replace` is leftmost and non-overlapping, as in Go.
 */
module GoStrings {

  /** `sub` occurs in `s` at position `i`. */
  predicate OccursAt(s: string, sub: string, i: int) {
    0 <= i && i + |sub| <= |s| && s[i..i + |sub|] == sub
  }

  /** strings.Contains(s, sub) */
  predicate Contains(s: string, sub: string) {
    sub <= s || (s != "" && Contains(s[1..], sub))
  }

  /** strings.Replace(s, sub, "", -1), for a non-empty `sub` */
  function RemoveAll(s: string, sub: string): string
    requires sub != ""
  {
    if sub <= s then RemoveAll(s[|sub|..], sub)
    else if s == "" then ""
    else [s[0]] + RemoveAll(s[1..], sub)
  }

  /** strings.Replace(s, sub, replacement, 1), for a non-empty `sub` */
  function ReplaceFirst(s: string, sub: string, replacement: string): string
    requires sub != ""
  {
    if sub <= s then replacement + s[|sub|..]
    else if s == "" then ""
    else [s[0]] + ReplaceFirst(s[1..], sub, replacement)
  }

  /** strings.Count(s, sub), for a non-empty `sub` */
  function Count(s: string, sub: string): nat
    requires sub != ""
  {
    if sub <= s then 1 + Count(s[|sub|..], sub)
    else if s == "" then 0
    else Count(s[1..], sub)
  }

  /** The pieces of `s` between the occurrences of the separator `c`. */
  function Split(s: string, c: char): (r: seq<string>)
    ensures |r| > 0
  {
    if s == "" then [""]
    else
      var r := Split(s[1..], c);
      if s[0] == c then [""] + r else [[s[0]] + r[0]] + r[1..]
  }

  /** strings.SplitN(s, c, 2) */
  function SplitN2(s: string, c: char): (r: seq<string>)
    ensures 1 <= |r| <= 2
    ensures |r| == 2 <==> c in s
  {
    if s == "" then [""]
    else if s[0] == c then ["", s[1..]]
    else
      var r := SplitN2(s[1..], c);
      [[s[0]] + r[0]] + r[1..]
  }

  /** Words with single blanks between them: what Go's Sprintf yields for the formats used here. */
  function Line(ws: seq<string>): string
    requires ws != []
  {
    if |ws| == 1 then ws[0] else ws[0] + " " + Line(ws[1..])
  }

  lemma OccursFirst(s: string, sub: string)
    ensures OccursAt(s, sub, 0) <==> sub <= s
  {
    assert sub <= s ==> s[0..|sub|] == sub;
  }

  lemma OccursLater(s: string, sub: string, i: int)
    requires s != "" && i > 0
    ensures OccursAt(s, sub, i) <==> OccursAt(s[1..], sub, i - 1)
  {
    assert |s[1..]| == |s| - 1;
    if i + |sub| <= |s| {
      assert s[1..][i - 1..i - 1 + |sub|] == s[i..i + |sub|];
    }
  }

  lemma {:induction false} ContainsMeansOccurs(s: string, sub: string)
    ensures Contains(s, sub) <==> exists i :: OccursAt(s, sub, i)
  {
    hide OccursAt;
    OccursFirst(s, sub);
    if s != "" {
      ContainsMeansOccurs(s[1..], sub);
      if exists i :: OccursAt(s[1..], sub, i) {
        var i :| OccursAt(s[1..], sub, i);
        OccursIsInside(s[1..], sub, i);
        OccursLater(s, sub, i + 1);
        assert i + 1 - 1 == i && OccursAt(s, sub, i + 1);
      }
    }
    if exists i :: OccursAt(s, sub, i) {
      var i :| OccursAt(s, sub, i);
      OccursIsInside(s, sub, i);
      if i > 0 {
        OccursLater(s, sub, i);
      }
    }
  }

  lemma OccursIsInside(s: string, sub: string, i: int)
    requires OccursAt(s, sub, i)
    ensures 0 <= i && i + |sub| <= |s| && (s == "" ==> i == 0)
  {
  }

  /** Splitting a joined text splits its halves. */
  lemma {:induction false} SplitAppend(a: string, b: string, c: char)
    ensures Split(a + [c] + b, c) == Split(a, c) + Split(b, c)
  {
    var s := a + [c] + b;
    if a == "" {
      assert s[1..] == b;
    } else {
      SplitAppend(a[1..], b, c);
      assert s[1..] == a[1..] + [c] + b && s[0] == a[0];
      SplitStep(s, a, Split(a[1..], c), Split(b, c), c);
    }
  }

  lemma SplitUnfolds(s: string, c: char)
    requires s != ""
    ensures var r := Split(s[1..], c); Split(s, c) == if s[0] == c then [""] + r else [[s[0]] + r[0]] + r[1..]
  {
  }

  lemma SplitStep(s: string, a: string, ra: seq<string>, rb: seq<string>, c: char)
    requires s != "" && a != "" && s[0] == a[0] && |ra| > 0
    requires Split(a[1..], c) == ra && Split(s[1..], c) == ra + rb
    ensures Split(s, c) == Split(a, c) + rb
  {
    hide Split;
    SplitUnfolds(s, c);
    SplitUnfolds(a, c);
    Reassociate([""], ra, rb);
    Reassociate([[a[0]] + ra[0]], ra[1..], rb);
    HeadOfSum(ra, rb);
  }

  lemma Reassociate<T>(a: seq<T>, b: seq<T>, c: seq<T>)
    ensures a + (b + c) == (a + b) + c
  {
  }

  lemma HeadOfSum<T>(a: seq<T>, b: seq<T>)
    requires a != []
    ensures (a + b)[0] == a[0] && (a + b)[1..] == a[1..] + b
  {
  }

  lemma {:induction false} SplitWord(w: string, c: char)
    requires c !in w
    ensures Split(w, c) == [w]
  {
    if w != "" {
      SplitWord(w[1..], c);
      assert w == [w[0]] + w[1..];
    }
  }

  /** SplitN2 cuts at the first separator: it undoes `a + [c] + b` exactly when `a` has none. */
  lemma {:induction false} SplitN2First(a: string, b: string, c: char)
    ensures SplitN2(a + [c] + b, c) == [a, b] <==> c !in a
  {
    var s := a + [c] + b;
    if a == "" {
      assert s[1..] == b;
    } else {
      assert s[1..] == a[1..] + [c] + b;
      SplitN2First(a[1..], b, c);
      assert a == [a[0]] + a[1..];
      assert c in a <==> a[0] == c || c in a[1..];
      var r := SplitN2(s[1..], c);
      if a[0] != c {
        assert c in s[1..] by { assert s[|a|] == c; assert s[1..][|a| - 1] == c; }
        assert SplitN2(s, c) == [[s[0]] + r[0], r[1]];
        if SplitN2(s, c) == [a, b] {
          assert r[0] == a[1..] by { assert ([s[0]] + r[0])[1..] == r[0]; }
        }
      } else {
        assert SplitN2(s, c)[0] == "";
      }
    }
  }

  lemma {:induction false} SplitLine(ws: seq<string>)
    requires ws != [] && forall w | w in ws :: ' ' !in w
    ensures Split(Line(ws), ' ') == ws
  {
    SplitWord(ws[0], ' ');
    if |ws| > 1 {
      SplitLine(ws[1..]);
      SplitAppend(ws[0], Line(ws[1..]), ' ');
    }
  }

  lemma {:induction false} LineHasNo(ws: seq<string>, c: char)
    requires ws != [] && c != ' ' && forall w | w in ws :: c !in w
    ensures c !in Line(ws)
  {
    if |ws| > 1 {
      LineHasNo(ws[1..], c);
    }
  }

  lemma {:induction false} LineLast(ws: seq<string>, tail: string)
    requires ws != []
    ensures Line(ws[..|ws| - 1] + [ws[|ws| - 1] + tail]) == Line(ws) + tail
  {
    var ws' := ws[..|ws| - 1] + [ws[|ws| - 1] + tail];
    if |ws| > 1 {
      LineLast(ws[1..], tail);
      assert ws'[1..] == ws[1..][..|ws| - 2] + [ws[1..][|ws| - 2] + tail];
    }
  }

  lemma {:induction false} LineConcat(a: seq<string>, b: seq<string>)
    requires a != [] && b != []
    ensures Line(a + b) == Line(a) + " " + Line(b)
  {
    if |a| == 1 {
      assert (a + b)[1..] == b;
    } else {
      LineConcat(a[1..], b);
      assert (a + b)[1..] == a[1..] + b;
      assert a[0] + " " + (Line(a[1..]) + " " + Line(b)) == (a[0] + " " + Line(a[1..])) + " " + Line(b);
    }
  }

  /** A word between two texts. */
  lemma LineAround(a: seq<string>, w: string, b: seq<string>)
    requires a != [] && b != []
    ensures Line(a + [w] + b) == (Line(a) + " ") + w + (" " + Line(b))
  {
    LineConcat(a, [w]);
    LineConcat(a + [w], b);
    assert ((Line(a) + " ") + w) + " " + Line(b) == (Line(a) + " ") + w + (" " + Line(b));
  }

  /** A text split by a separator, and the same text with something in front. */
  lemma {:induction false} SplitAfterPrefix(p: string, s: string, c: char)
    ensures |Split(p + s, c)| >= |Split(s, c)|
    ensures |Split(p + s, c)| == |Split(s, c)| ==>
              c !in p && Split(p + s, c)[0] == p + Split(s, c)[0] && Split(p + s, c)[1..] == Split(s, c)[1..]
  {
    hide Split;
    if p == "" {
      assert p + s == s;
    } else {
      SplitAfterPrefix(p[1..], s, c);
      SplitUnfolds(p + s, c);
      assert (p + s)[1..] == p[1..] + s && (p + s)[0] == p[0];
      assert c in p <==> p[0] == c || c in p[1..];
      assert p == [p[0]] + p[1..];
      Reassociate([p[0]], p[1..], Split(s, c)[0]);
    }
  }
}
