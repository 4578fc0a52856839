/**
 * Strings as the client uses them: substring search (`String.prototype.includes`),
 * URL paths built from slash-separated segments, and the decimal text that a
 * template literal gives an integer (`${id}`).
 */
module Text {

  /** `p` is a prefix of `s`. */
  predicate StartsWith(s: string, p: string) {
    |p| <= |s| && s[..|p|] == p
  }

  /** `s.includes(p)`: some suffix of `s` starts with `p`. */
  predicate Contains(s: string, p: string)
    decreases |s|
  {
    StartsWith(s, p) || (|s| > 0 && Contains(s[1..], p))
  }

  /** `p` occurs in `s` at offset `i`: the reference meaning of `Contains`. */
  predicate OccursAt(s: string, p: string, i: int) {
    0 <= i && i + |p| <= |s| && s[i..i + |p|] == p
  }

  lemma {:induction false} ContainsIffOccurs(s: string, p: string)
    ensures Contains(s, p) <==> exists i :: OccursAt(s, p, i)
    decreases |s|
  {
    if StartsWith(s, p) {
      assert OccursAt(s, p, 0);
    } else if |s| > 0 {
      ContainsIffOccurs(s[1..], p);
      if Contains(s[1..], p) {
        var i :| OccursAt(s[1..], p, i);
        assert s[1..][i..i + |p|] == s[i + 1..i + 1 + |p|];
        assert OccursAt(s, p, i + 1);
      } else {
        forall i | OccursAt(s, p, i) ensures false {
          if i > 0 {
            assert s[1..][i - 1..i - 1 + |p|] == s[i..i + |p|];
            assert OccursAt(s[1..], p, i - 1);
          }
        }
      }
    } else {
      forall i | OccursAt(s, p, i) ensures false {
      }
    }
  }

  /** A segment of a path: text with no slash in it. */
  predicate Segment(x: string) {
    '/' !in x
  }

  /** "/s0/s1/…/sn": every segment preceded by one slash. */
  function Join(segs: seq<string>): string {
    if segs == [] then "" else "/" + segs[0] + Join(segs[1..])
  }

  /** Some segment is exactly `w` and the segment after it begins with `t`. */
  predicate HasAdjacent(segs: seq<string>, w: string, t: string) {
    |segs| >= 2 && ((segs[0] == w && StartsWith(segs[1], t)) || HasAdjacent(segs[1..], w, t))
  }

  /** A joined path is empty or begins with a slash. */
  lemma JoinShape(segs: seq<string>)
    ensures segs == [] <==> Join(segs) == []
    ensures segs != [] ==> Join(segs)[0] == '/'
  {
  }

  lemma JoinCons(w: string, r: seq<string>)
    requires |r| > 0
    ensures "/" + w + Join(r) == "/" + w + "/" + r[0] + Join(r[1..])
  {
    assert Join(r) == "/" + r[0] + Join(r[1..]);
  }

  /** A match of a pattern that begins with a slash cannot start inside a segment. */
  lemma {:induction false} SkipSegment(x: string, rest: string, p: string)
    requires Segment(x) && |p| > 0 && p[0] == '/'
    ensures Contains(x + rest, p) == Contains(rest, p)
    decreases |x|
  {
    if x != [] {
      assert !StartsWith(x + rest, p) by {
        assert (x + rest)[0] == x[0];
      }
      assert (x + rest)[1..] == x[1..] + rest;
      SkipSegment(x[1..], rest, p);
    } else {
      assert x + rest == rest;
    }
  }

  /** "/w/t" is a prefix of "/w/…" when the segment after w begins with t. */
  lemma HeadMarkerIf(w: string, r: seq<string>, t: string)
    requires |r| > 0 && StartsWith(r[0], t)
    ensures StartsWith("/" + w + Join(r), "/" + w + "/" + t)
  {
    var s := "/" + w + Join(r);
    var p := "/" + w + "/" + t;
    var rest := r[0][|t|..] + Join(r[1..]);
    assert Join(r) == "/" + r[0] + Join(r[1..]);
    assert r[0] == t + r[0][|t|..];
    assert "/" + w + Join(r) == "/" + w + "/" + t + rest;
    assert s == p + rest;
    assert s[..|p|] == p;
  }

  /** Below its first slash, "/w/t" spans exactly the segment w. */
  lemma HeadSegmentIsW(x: string, r: seq<string>, w: string, t: string)
    requires Segment(x) && Segment(w)
    requires StartsWith("/" + x + Join(r), "/" + w + "/" + t)
    ensures x == w && |r| > 0
  {
    var s := "/" + x + Join(r);
    var p := "/" + w + "/" + t;
    JoinShape(r);
    // the first slash after the head decides: it must sit at the same place in both
    var k := 1 + if |x| < |w| then |x| else |w|;
    assert s[k] == s[..|p|][k] == p[k];
    assert |x| == |w|;
    assert x == s[1..1 + |w|] == p[1..1 + |w|] == w;
  }

  /** After "/w/", the text t of the marker lies inside the next segment. */
  lemma NextSegmentStartsWithT(w: string, y: string, j: string, t: string)
    requires Segment(y) && Segment(t)
    requires j == [] || j[0] == '/'
    requires StartsWith("/" + w + "/" + y + j, "/" + w + "/" + t)
    ensures StartsWith(y, t)
  {
    var s := "/" + w + "/" + y + j;
    var p := "/" + w + "/" + t;
    var n := |w|;
    assert s[..|p|] == p;
    // the slash that ends y, if t were longer, would fall inside the marker's t
    var k := 1 + n + if |t| > |y| then 1 + |y| else 0;
    assert s[k] == s[..|p|][k] == p[k];
    assert |t| <= |y|;
    assert y[..|t|] == s[2 + n..2 + n + |t|] == p[2 + n..] == t;
  }

  /** A marker "/w/t" at the head of "/x/…" forces x == w and a next segment beginning with t. */
  lemma HeadMarkerOnlyIf(x: string, r: seq<string>, w: string, t: string)
    requires Segment(x) && Segment(w) && Segment(t)
    requires |r| > 0 ==> Segment(r[0])
    requires StartsWith("/" + x + Join(r), "/" + w + "/" + t)
    ensures x == w && |r| > 0 && StartsWith(r[0], t)
  {
    HeadSegmentIsW(x, r, w, t);
    JoinShape(r[1..]);
    JoinCons(w, r);
    NextSegmentStartsWithT(w, r[0], Join(r[1..]), t);
  }

  /** A marker "/w/t" matches at the head of "/x/…" exactly when x is w and the next segment begins with t. */
  lemma HeadMarker(x: string, r: seq<string>, w: string, t: string)
    requires Segment(x) && Segment(w) && Segment(t)
    requires |r| > 0 ==> Segment(r[0])
    ensures StartsWith("/" + x + Join(r), "/" + w + "/" + t)
        <==> x == w && |r| > 0 && StartsWith(r[0], t)
  {
    if StartsWith("/" + x + Join(r), "/" + w + "/" + t) {
      HeadMarkerOnlyIf(x, r, w, t);
    }
    if x == w && |r| > 0 && StartsWith(r[0], t) {
      HeadMarkerIf(w, r, t);
    }
  }

  /**
   * A path of slash-free segments contains the marker "/w/t" exactly when one
   * segment is w and the segment after it begins with t.
   */
  lemma {:induction false} MarkerIffAdjacent(segs: seq<string>, w: string, t: string)
    requires forall i :: 0 <= i < |segs| ==> Segment(segs[i])
    requires Segment(w) && Segment(t)
    ensures Contains(Join(segs), "/" + w + "/" + t) <==> HasAdjacent(segs, w, t)
  {
    var p := "/" + w + "/" + t;
    if segs == [] {
      assert !StartsWith("", p);
    } else {
      var x, r := segs[0], segs[1..];
      var s := Join(segs);
      assert s == "/" + x + Join(r);
      assert s[1..] == x + Join(r);
      SkipSegment(x, Join(r), p);
      MarkerIffAdjacent(r, w, t);
      HeadMarker(x, r, w, t);
    }
  }

  predicate IsDigit(c: char) {
    '0' <= c <= '9'
  }

  function DigitChar(d: nat): (c: char)
    requires d < 10
    ensures IsDigit(c)
  {
    ('0' as int + d) as char
  }

  function DigitValue(c: char): nat
    requires IsDigit(c)
  {
    c as int - '0' as int
  }

  predicate AllDigits(s: string) {
    forall i :: 0 <= i < |s| ==> IsDigit(s[i])
  }

  /** The decimal numeral of `n`, most significant digit first, no leading zero. */
  function NatText(n: nat): (r: string)
    ensures |r| > 0 && AllDigits(r)
    ensures |r| > 1 ==> r[0] != '0'
    decreases n
  {
    if n < 10 then [DigitChar(n)] else NatText(n / 10) + [DigitChar(n % 10)]
  }

  /** The value a decimal numeral denotes. */
  function DigitsValue(s: string): nat
    requires AllDigits(s)
  {
    if s == [] then 0 else 10 * DigitsValue(s[..|s| - 1]) + DigitValue(s[|s| - 1])
  }

  lemma {:induction false} NatTextRoundTrip(n: nat)
    ensures DigitsValue(NatText(n)) == n
    decreases n
  {
    if n >= 10 {
      var s := NatText(n);
      assert s[..|s| - 1] == NatText(n / 10);
      NatTextRoundTrip(n / 10);
    }
  }

  /** `${n}` for an integer-valued JavaScript number. */
  function IntText(n: int): string {
    if n < 0 then "-" + NatText(-n) else NatText(n)
  }

  lemma IntTextInjective(a: int, b: int)
    requires IntText(a) == IntText(b)
    ensures a == b
  {
    var s := IntText(a);
    if a < 0 && b < 0 {
      assert NatText(-a) == s[1..] == NatText(-b);
      NatTextRoundTrip(-a);
      NatTextRoundTrip(-b);
    } else if a >= 0 && b >= 0 {
      NatTextRoundTrip(a);
      NatTextRoundTrip(b);
    }
  }
}
