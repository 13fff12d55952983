/** Text as the source's language sees it: sequences of UTF-16 code units, compared unit by unit.
    This is the order behind every `<` on strings and behind the default array sort. */
module TextOrder {

  type CodeUnit = u: int | 0 <= u < 0x1_0000

  type Text = seq<CodeUnit>

  predicate LexLess(a: Text, b: Text) {
    b != [] && (a == [] || a[0] < b[0] || (a[0] == b[0] && LexLess(a[1..], b[1..])))
  }

  lemma {:induction false} LexIrreflexive(a: Text)
    ensures !LexLess(a, a)
  {
    if a != [] {
      LexIrreflexive(a[1..]);
    }
  }

  lemma {:induction false} LexTotal(a: Text, b: Text)
    ensures a == b || LexLess(a, b) || LexLess(b, a)
  {
    if a != [] && b != [] && a[0] == b[0] {
      LexTotal(a[1..], b[1..]);
      assert a[1..] == b[1..] ==> a == [a[0]] + a[1..] == b;
    }
  }

  lemma {:induction false} LexTransitive(a: Text, b: Text, c: Text)
    requires LexLess(a, b) && LexLess(b, c)
    ensures LexLess(a, c)
  {
    if a != [] && a[0] == b[0] == c[0] {
      LexTransitive(a[1..], b[1..], c[1..]);
    }
  }

  // ----- Strings as text -----

  /** One code unit, or the two surrogates of a character beyond the first plane. */
  function CharUnits(c: char): Text {
    var n := c as int;
    if n < 0x1_0000 then [n] else [0xD800 + (n - 0x1_0000) / 0x400, 0xDC00 + (n - 0x1_0000) % 0x400]
  }

  function Units(s: string): Text {
    if s == [] then [] else CharUnits(s[0]) + Units(s[1..])
  }

  /** A text tells where its first character ends, because a lone character is never a surrogate. */
  lemma FirstCharUnits(a: char, rest: Text, b: char, tail: Text)
    requires CharUnits(a) + rest == CharUnits(b) + tail
    ensures a == b && rest == tail
  {
    var (s, t) := (CharUnits(a) + rest, CharUnits(b) + tail);
    assert s[0] == CharUnits(a)[0] && t[0] == CharUnits(b)[0];
    assert |CharUnits(a)| == |CharUnits(b)|;
    if |CharUnits(a)| == 2 {
      assert s[1] == CharUnits(a)[1] && t[1] == CharUnits(b)[1];
    }
    assert a as int == b as int;
    assert rest == s[|CharUnits(a)|..] && tail == t[|CharUnits(b)|..];
  }

  lemma {:induction false} UnitsInjective(a: string, b: string)
    requires Units(a) == Units(b)
    ensures a == b
  {
    if a != [] && b != [] {
      FirstCharUnits(a[0], Units(a[1..]), b[0], Units(b[1..]));
      UnitsInjective(a[1..], b[1..]);
      assert a == [a[0]] + a[1..] && b == [b[0]] + b[1..];
    }
  }

  /** Two strings are ordered as the first characters that differ, when those are single units. */
  lemma {:induction false} FirstDifference(a: string, b: string, k: nat)
    requires k < |a| && k < |b| && a[..k] == b[..k] && a[k] < b[k] && b[k] as int < 0x1_0000
    ensures LexLess(Units(a), Units(b))
  {
    if k == 0 {
      assert CharUnits(a[0]) == [a[0] as int] && CharUnits(b[0]) == [b[0] as int];
    } else {
      assert a[0] == a[..k][0] == b[..k][0] == b[0];
      assert a[1..][..k - 1] == a[..k][1..] == b[..k][1..] == b[1..][..k - 1];
      FirstDifference(a[1..], b[1..], k - 1);
      SamePrefix(CharUnits(a[0]), Units(a[1..]), Units(b[1..]));
    }
  }

  lemma {:induction false} SamePrefix(p: Text, a: Text, b: Text)
    requires LexLess(a, b)
    ensures LexLess(p + a, p + b)
  {
    if p == [] {
      assert p + a == a && p + b == b;
    } else {
      assert (p + a)[1..] == p[1..] + a && (p + b)[1..] == p[1..] + b;
      SamePrefix(p[1..], a, b);
    }
  }
}
