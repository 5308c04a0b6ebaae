/**
 * JavaScript's `<` and `>` on strings, and the default `sort()` order: the
 * UTF-16 code units of the two strings are compared one by one and a
 * proper prefix is smaller. The application keeps dates as ISO 8601
 * calendar dates in the extended format YYYY-MM-DD (section 4.1.2.2 of
 * ISO 8601:2004), whose fields have fixed widths, so on dates this order is
 * chronological order.
 *
 * A Dafny string is a sequence of Unicode scalar values; `Less` compares
 * them character by character through `Rank`, and `LessIsCodeUnitOrder`
 * shows that this is exactly the order of their UTF-16 encodings.
 */
module Lex {
  import opened Sorting

  /** The UTF-16 code units of a character: one unit below U+10000, else a surrogate pair. */
  function Units(c: char): (u: seq<int>)
    ensures 1 <= |u| <= 2
  {
    var v := c as int;
    if v < 0x1_0000 then [v]
    else [0xD800 + (v - 0x1_0000) / 0x400, 0xDC00 + (v - 0x1_0000) % 0x400]
  }

  /** A string as JavaScript holds it: the sequence of its UTF-16 code units. */
  function Utf16(s: string): seq<int>
  {
    if |s| == 0 then [] else Units(s[0]) + Utf16(s[1..])
  }

  /** Lexicographic order on code-unit sequences, a proper prefix first. */
  predicate UnitsLess(x: seq<int>, y: seq<int>)
  {
    if |y| == 0 then false
    else if |x| == 0 then true
    else if x[0] != y[0] then x[0] < y[0]
    else UnitsLess(x[1..], y[1..])
  }

  /**
   * A character's place in code-unit order: characters below the surrogate
   * block come first, then those above U+FFFF (whose first unit is a
   * surrogate), then the rest of the basic plane.
   */
  function Rank(c: char): int
  {
    var v := c as int;
    if v < 0xD800 then v
    else if v < 0x1_0000 then v + 0x10_0000
    else v - 0x1_0000 + 0xD800
  }

  /** `a < b` on strings. */
  predicate Less(a: string, b: string)
  {
    if |b| == 0 then false
    else if |a| == 0 then true
    else if a[0] != b[0] then Rank(a[0]) < Rank(b[0])
    else Less(a[1..], b[1..])
  }

  /** `a <= b` on strings: not `b < a`. */
  predicate LessEq(a: string, b: string)
  {
    !Less(b, a)
  }

  lemma {:induction false} LessIrreflexive(a: string)
    ensures !Less(a, a)
  {
    if |a| > 0 {
      LessIrreflexive(a[1..]);
    }
  }

  lemma {:induction false} LessAsymmetric(a: string, b: string)
    ensures Less(a, b) ==> !Less(b, a)
  {
    if |a| > 0 && |b| > 0 && a[0] == b[0] {
      LessAsymmetric(a[1..], b[1..]);
    }
  }

  /** Strings that agree before position `k` are ordered by the ranks of their characters at `k`. */
  lemma {:induction false} LessAt(a: string, b: string, k: nat)
    requires k < |a| && k < |b| && a[..k] == b[..k] && Rank(a[k]) < Rank(b[k])
    ensures Less(a, b)
  {
    if k > 0 {
      assert a[0] == a[..k][0] == b[..k][0] == b[0];
      assert a[1..][..k - 1] == a[..k][1..];
      assert b[1..][..k - 1] == b[..k][1..];
      LessAt(a[1..], b[1..], k - 1);
    }
  }

  /** Different characters have different ranks. */
  lemma {:induction false} RankInjective(c: char, d: char)
    requires c != d
    ensures Rank(c) != Rank(d)
  {
    assert c as int != d as int;
  }

  /** Any two strings are equal or one is below the other. */
  lemma {:induction false} LessTrichotomy(a: string, b: string)
    ensures Less(a, b) || a == b || Less(b, a)
  {
    if |a| > 0 && |b| > 0 && a[0] != b[0] {
      RankInjective(a[0], b[0]);
    }
    if |a| > 0 && |b| > 0 && a[0] == b[0] {
      LessTrichotomy(a[1..], b[1..]);
      assert a == [a[0]] + a[1..] && b == [b[0]] + b[1..];
    }
  }

  lemma {:induction false} LessTransitive(a: string, b: string, c: string)
    ensures Less(a, b) && Less(b, c) ==> Less(a, c)
  {
    if |a| > 0 && |b| > 0 && |c| > 0 && a[0] == b[0] == c[0] {
      LessTransitive(a[1..], b[1..], c[1..]);
    }
  }

  /** `LessEq` is a total order on strings, so sorting by it is meaningful and a sort of distinct strings is strict. */
  lemma {:induction false} LessEqIsTotalOrder()
    ensures IsTotalPreorder(LessEq)
    ensures IsAntisymmetric(LessEq)
  {
    forall a, b ensures LessEq(a, b) || LessEq(b, a) {
      LessAsymmetric(a, b);
    }
    forall a, b, c | LessEq(a, b) && LessEq(b, c) ensures LessEq(a, c) {
      LessTrichotomy(a, b);
      LessTrichotomy(b, c);
      LessTransitive(a, b, c);
      LessAsymmetric(a, c);
    }
    forall a, b | LessEq(a, b) && LessEq(b, a) ensures a == b {
      LessTrichotomy(a, b);
    }
  }

  /** `keys.sort()` on distinct strings: the same strings, strictly ascending. */
  lemma {:induction false} SortStrings(keys: seq<string>)
    requires Distinct(keys)
    ensures IsTotalPreorder(LessEq)
    ensures forall i, j :: 0 <= i < j < |Sort(keys, LessEq)| ==> Less(Sort(keys, LessEq)[i], Sort(keys, LessEq)[j])
    ensures Distinct(Sort(keys, LessEq)) && |Sort(keys, LessEq)| == |keys|
    ensures forall i :: 0 <= i < |Sort(keys, LessEq)| ==> Sort(keys, LessEq)[i] in keys
    ensures forall i :: 0 <= i < |keys| ==> keys[i] in Sort(keys, LessEq)
  {
    LessEqIsTotalOrder();
    SortDistinct(keys, LessEq);
  }

  /** `Less` is JavaScript's order: the lexicographic order of the two strings' UTF-16 code units. */
  lemma {:induction false} LessIsCodeUnitOrder(a: string, b: string)
    ensures Less(a, b) <==> UnitsLess(Utf16(a), Utf16(b))
  {
    if |a| > 0 && |b| > 0 {
      if a[0] == b[0] {
        LessIsCodeUnitOrder(a[1..], b[1..]);
        CommonPrefix(Units(a[0]), Utf16(a[1..]), Utf16(b[1..]));
      } else {
        FirstCharDecides(a[0], b[0], Utf16(a[1..]), Utf16(b[1..]));
      }
    }
  }

  /** A shared prefix does not decide the order of two code-unit sequences. */
  lemma {:induction false} CommonPrefix(p: seq<int>, x: seq<int>, y: seq<int>)
    ensures UnitsLess(p + x, p + y) <==> UnitsLess(x, y)
  {
    if |p| > 0 {
      assert (p + x)[1..] == p[1..] + x && (p + y)[1..] == p[1..] + y;
      CommonPrefix(p[1..], x, y);
    } else {
      assert p + x == x && p + y == y;
    }
  }

  /** The code units of two different characters are ordered as their ranks, whatever follows them. */
  lemma {:induction false} FirstCharDecides(c: char, d: char, x: seq<int>, y: seq<int>)
    requires c != d
    ensures UnitsLess(Units(c) + x, Units(d) + y) <==> Rank(c) < Rank(d)
  {
    var v, w := c as int, d as int;
    assert v != w;
    var u, t := Units(c) + x, Units(d) + y;
    assert u[0] == Units(c)[0] && t[0] == Units(d)[0];
    if v >= 0x1_0000 && w >= 0x1_0000 && u[0] == t[0] {
      assert u[1..] == [Units(c)[1]] + x && t[1..] == [Units(d)[1]] + y;
      SameHighSurrogate(v, w);
    } else {
      FirstUnits(v, w);
    }
  }

  /** Two supplementary code points with the same high surrogate are ordered by their low surrogates. */
  lemma {:induction false} SameHighSurrogate(v: int, w: int)
    requires 0x1_0000 <= v && 0x1_0000 <= w && v != w
    requires (v - 0x1_0000) / 0x400 == (w - 0x1_0000) / 0x400
    ensures (v - 0x1_0000) % 0x400 != (w - 0x1_0000) % 0x400
    ensures (v - 0x1_0000) % 0x400 < (w - 0x1_0000) % 0x400 <==> v < w
  {
  }

  /** When the first code units differ, they are ordered as the ranks. */
  lemma {:induction false} FirstUnits(v: int, w: int)
    requires 0 <= v < 0xD800 || 0xE000 <= v < 0x11_0000
    requires 0 <= w < 0xD800 || 0xE000 <= w < 0x11_0000
    requires v != w
    ensures var fv := if v < 0x1_0000 then v else 0xD800 + (v - 0x1_0000) / 0x400;
            var fw := if w < 0x1_0000 then w else 0xD800 + (w - 0x1_0000) / 0x400;
            var rv := if v < 0xD800 then v else if v < 0x1_0000 then v + 0x10_0000 else v - 0x1_0000 + 0xD800;
            var rw := if w < 0xD800 then w else if w < 0x1_0000 then w + 0x10_0000 else w - 0x1_0000 + 0xD800;
            fv != fw ==> (fv < fw <==> rv < rw)
  {
  }

  /** As in JavaScript, U+1F600 (units D83D DE00) sorts before U+FF5E although its code point is larger. */
  lemma {:induction false} SurrogatesBeforeHighBasicPlane()
    ensures Less("\U{1F600}", "\U{FF5E}") && !Less("\U{FF5E}", "\U{1F600}")
    ensures UnitsLess(Utf16("\U{1F600}"), Utf16("\U{FF5E}"))
  {
    LessIsCodeUnitOrder("\U{1F600}", "\U{FF5E}");
  }
}
