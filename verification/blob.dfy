/**
 * The heap blob: a signed shape and two vectors (data and diff) whose
 * capacity only grows. Reshaping records the new shape and reallocates
 * both vectors, empty and with exactly the new element count as capacity,
 * only when that count exceeds the current data capacity.
 */
module Blobs {
  import Decimal

  /** Product of the dimensions, 1 for the empty shape; dimensions are signed, so the product may be negative. */
  function Capacity(shape: seq<int>): int
  {
    if |shape| == 0 then 1 else Capacity(shape[..|shape| - 1]) * shape[|shape| - 1]
  }

  /** The text of `shape_string`: each dimension followed by a space, then the rank in parentheses. */
  function ShapeText(shape: seq<int>): (s: string)
    ensures |s| >= 3 && s[|s| - 1] == ')'
  {
    DimsText(shape) + "(" + Decimal.NatToString(|shape|) + ")"
  }

  function DimsText(shape: seq<int>): string
  {
    if |shape| == 0 then "" else DimsText(shape[..|shape| - 1]) + Decimal.IntToString(shape[|shape| - 1]) + " "
  }

  /** Every dimension's text is followed by exactly one space: the text has one space per dimension. */
  lemma {:induction false} DimsTextSpaces(shape: seq<int>)
    ensures Spaces(DimsText(shape)) == |shape|
  {
    if |shape| > 0 {
      var init := shape[..|shape| - 1];
      DimsTextSpaces(init);
      var digits := Decimal.IntToString(shape[|shape| - 1]);
      SpacesAppend(DimsText(init) + digits, " ");
      SpacesAppend(DimsText(init), digits);
      NoSpacesInNumber(shape[|shape| - 1]);
    }
  }

  function Spaces(s: string): nat
  {
    if |s| == 0 then 0 else Spaces(s[..|s| - 1]) + (if s[|s| - 1] == ' ' then 1 else 0)
  }

  lemma {:induction false} SpacesAppend(a: string, b: string)
    ensures Spaces(a + b) == Spaces(a) + Spaces(b)
    decreases |b|
  {
    if |b| == 0 {
      assert a + b == a;
    } else {
      assert (a + b)[..|a + b| - 1] == a + b[..|b| - 1];
      SpacesAppend(a, b[..|b| - 1]);
    }
  }

  lemma NoSpacesInNumber(i: int)
    ensures Spaces(Decimal.IntToString(i)) == 0
  {
    var s := Decimal.IntToString(i);
    NoSpacesIn(s);
  }

  lemma {:induction false} NoSpacesIn(s: string)
    requires forall k :: 0 <= k < |s| ==> s[k] != ' '
    ensures Spaces(s) == 0
  {
    if |s| > 0 {
      NoSpacesIn(s[..|s| - 1]);
    }
  }

  class Blob {
    var shape: seq<int>
    var data: seq<real>
    var dataCapacity: nat
    var diff: seq<real>
    var diffCapacity: nat

    /** Each vector fits its capacity, and the two vectors are always allocated together. */
    ghost predicate Valid()
      reads this
    {
      |data| <= dataCapacity && |diff| <= diffCapacity && dataCapacity == diffCapacity
    }

    /** `Blob::new`: the shape `[0]`, nothing allocated. */
    constructor New()
      ensures Valid() && shape == [0] && data == [] && diff == [] && dataCapacity == 0
    {
      shape := [0];
      data := [];
      dataCapacity := 0;
      diff := [];
      diffCapacity := 0;
    }

    /** `Blob::of_shape`: a blob of shape `[0]` reshaped to `newShape`. */
    constructor OfShape(newShape: seq<int>)
      ensures Valid() && shape == newShape && data == [] && diff == []
      ensures dataCapacity == if Capacity(newShape) > 0 then Capacity(newShape) else 0
    {
      shape := [0];
      data := [];
      dataCapacity := 0;
      diff := [];
      diffCapacity := 0;
      new;
      Reshape(newShape);
    }

    /**
     * `reshape`: the new shape always; fresh empty vectors of the new
     * element count only when it exceeds the data capacity.
     */
    method Reshape(newShape: seq<int>)
      requires Valid()
      modifies this
      ensures Valid() && shape == newShape
      ensures Capacity(newShape) > old(dataCapacity) ==>
        data == [] && diff == [] && dataCapacity == Capacity(newShape) && diffCapacity == Capacity(newShape)
      ensures Capacity(newShape) <= old(dataCapacity) ==>
        data == old(data) && diff == old(diff) && dataCapacity == old(dataCapacity) && diffCapacity == old(diffCapacity)
      ensures dataCapacity >= old(dataCapacity) && dataCapacity >= Capacity(newShape)
    {
      var newCapacity := 1;
      for k := 0 to |newShape|
        invariant newCapacity == Capacity(newShape[..k])
      {
        assert newShape[..k + 1][..k] == newShape[..k];
        newCapacity := newCapacity * newShape[k];
      }
      assert newShape[..|newShape|] == newShape;
      shape := newShape;
      if newCapacity > dataCapacity {
        data := [];
        dataCapacity := newCapacity;
        diff := [];
        diffCapacity := newCapacity;
      }
    }

    /** `len`: the length of the data vector, not its capacity. */
    function Len(): (n: nat)
      reads this
      requires Valid()
      ensures n == |data| && n <= dataCapacity
    {
      |data|
    }

    /** `shape_string`, built dimension by dimension. */
    method ShapeString() returns (s: string)
      ensures s == ShapeText(shape)
    {
      s := "";
      for k := 0 to |shape|
        invariant s == DimsText(shape[..k])
      {
        assert shape[..k + 1][..k] == shape[..k];
        s := s + Decimal.IntToString(shape[k]) + " ";
      }
      assert shape[..|shape|] == shape;
      s := s + "(" + Decimal.NatToString(|shape|) + ")";
    }
  }

  /** `of_shape([2, 3, 2])` allocates 12 elements; a new blob allocates none. */
  lemma OfShapeCapacityExample()
    ensures Capacity([2, 3, 2]) == 12 && Capacity([0]) == 0
  {
    assert [2, 3, 2][..2] == [2, 3];
    assert [2, 3][..1] == [2];
    assert [2][..0] == [];
    assert [0][..0] == [];
  }

  /** The shape string of `[2, 3, 2]` is "2 3 2 (3)". */
  lemma ShapeStringExample()
    ensures ShapeText([2, 3, 2]) == "2 3 2 (3)"
  {
    assert [2, 3, 2][..2] == [2, 3];
    assert [2, 3][..1] == [2];
    assert [2][..0] == [];
    assert Decimal.IntToString(2) == "2" && Decimal.IntToString(3) == "3";
    assert Decimal.NatToString(3) == "3";
  }

  /** No character of a dimension list's text is an opening parenthesis. */
  lemma {:induction false} DimsTextNoParen(shape: seq<int>)
    ensures forall k :: 0 <= k < |DimsText(shape)| ==> DimsText(shape)[k] != '('
  {
    if |shape| > 0 {
      DimsTextNoParen(shape[..|shape| - 1]);
      var digits := Decimal.IntToString(shape[|shape| - 1]);
      assert forall k :: 1 <= k < |digits| ==> digits[k] != '(' by {
        if shape[|shape| - 1] < 0 {
          assert forall k :: 1 <= k < |digits| ==> digits[k] == digits[1..][k - 1];
        }
      }
    }
  }

  /** The text between the parentheses of the shape string reads back as the rank. */
  lemma ShapeTextRank(shape: seq<int>)
    ensures var s := ShapeText(shape); var d := |DimsText(shape)|;
      d + 2 < |s| && s[d] == '(' &&
      (forall k :: d + 1 <= k < |s| - 1 ==> Decimal.IsDigit(s[k])) &&
      Decimal.DigitsValue(s[d + 1..|s| - 1]) == |shape|
  {
    var s := ShapeText(shape);
    var d := |DimsText(shape)|;
    assert s[d + 1..|s| - 1] == Decimal.NatToString(|shape|);
    Decimal.NatToStringRoundTrip(|shape|);
  }

  /** A dimension's text never contains a space. */
  lemma NoSpaceInInt(i: int)
    ensures forall k :: 0 <= k < |Decimal.IntToString(i)| ==> Decimal.IntToString(i)[k] != ' '
  {
    var digits := Decimal.IntToString(i);
    if i < 0 {
      assert forall k :: 1 <= k < |digits| ==> digits[k] == digits[1..][k - 1];
    }
  }

  /** Distinct integers print differently. */
  lemma IntToStringInjective(a: int, b: int)
    requires Decimal.IntToString(a) == Decimal.IntToString(b)
    ensures a == b
  {
    var s := Decimal.IntToString(a);
    if a < 0 {
      Decimal.NatToStringInjective(-a, -b);
    } else {
      Decimal.NatToStringInjective(a, b);
    }
  }

  /** Where the text after the last space begins (0 when there is no space). */
  function AfterLastSpace(s: string): (r: nat)
    ensures r <= |s|
    ensures r > 0 ==> s[r - 1] == ' '
  {
    if |s| == 0 then 0 else if s[|s| - 1] == ' ' then |s| else AfterLastSpace(s[..|s| - 1])
  }

  /** A text that is empty or ends with a space, followed by a word without spaces: the word starts after the last space. */
  lemma {:induction false} AfterLastSpaceSplit(p: string, q: string)
    requires |p| == 0 || p[|p| - 1] == ' '
    requires forall k :: 0 <= k < |q| ==> q[k] != ' '
    ensures AfterLastSpace(p + q) == |p|
    decreases |q|
  {
    if |q| == 0 {
      assert p + q == p;
      if |p| > 0 {
        assert p[..|p| - 1] + [p[|p| - 1]] == p;
      }
    } else {
      assert (p + q)[..|p + q| - 1] == p + q[..|q| - 1];
      AfterLastSpaceSplit(p, q[..|q| - 1]);
    }
  }

  /** Two texts that each end with a space (or are empty), followed by a word without spaces, split only one way. */
  lemma SplitAtLastSpace(p: string, q: string, p': string, q': string)
    requires |p| == 0 || p[|p| - 1] == ' '
    requires |p'| == 0 || p'[|p'| - 1] == ' '
    requires forall k :: 0 <= k < |q| ==> q[k] != ' '
    requires forall k :: 0 <= k < |q'| ==> q'[k] != ' '
    requires p + q == p' + q'
    ensures p == p' && q == q'
  {
    var s := p + q;
    AfterLastSpaceSplit(p, q);
    AfterLastSpaceSplit(p', q');
    assert p == s[..|p|] && p' == s[..|p'|];
    assert q == s[|p|..] && q' == s[|p'|..];
  }

  /** The index of the first opening parenthesis (the length when there is none). */
  function FirstParen(s: string): (r: nat)
    ensures r <= |s|
    ensures r < |s| ==> s[r] == '('
  {
    if |s| == 0 || s[0] == '(' then 0 else 1 + FirstParen(s[1..])
  }

  /** A text without parentheses followed by one that opens with `(`: the parenthesis comes right after the first. */
  lemma {:induction false} FirstParenSplit(d: string, t: string)
    requires forall k :: 0 <= k < |d| ==> d[k] != '('
    requires |t| > 0 && t[0] == '('
    ensures FirstParen(d + t) == |d|
    decreases |d|
  {
    if |d| == 0 {
      assert d + t == t;
    } else {
      assert (d + t)[1..] == d[1..] + t;
      FirstParenSplit(d[1..], t);
    }
  }

  /** Distinct shapes give distinct dimension texts. */
  lemma {:induction false} DimsTextInjective(a: seq<int>, b: seq<int>)
    requires DimsText(a) == DimsText(b)
    ensures a == b
    decreases |a|
  {
    if |a| > 0 && |b| > 0 {
      var ia, ib := a[..|a| - 1], b[..|b| - 1];
      var xa, xb := Decimal.IntToString(a[|a| - 1]), Decimal.IntToString(b[|b| - 1]);
      DropTrailingSpace(DimsText(ia) + xa, DimsText(ib) + xb);
      NoSpaceInInt(a[|a| - 1]);
      NoSpaceInInt(b[|b| - 1]);
      DimsTextEndsWithSpace(ia);
      DimsTextEndsWithSpace(ib);
      SplitAtLastSpace(DimsText(ia), xa, DimsText(ib), xb);
      IntToStringInjective(a[|a| - 1], b[|b| - 1]);
      DimsTextInjective(ia, ib);
      assert a == ia + [a[|a| - 1]] && b == ib + [b[|b| - 1]];
    }
  }

  lemma DimsTextEndsWithSpace(shape: seq<int>)
    ensures |DimsText(shape)| == 0 || DimsText(shape)[|DimsText(shape)| - 1] == ' '
  {
  }

  lemma DropTrailingSpace(u: string, v: string)
    requires u + " " == v + " "
    ensures u == v
  {
    assert u == (u + " ")[..|u|] && v == (v + " ")[..|v|];
  }

  /** The dimension text is what precedes the first parenthesis of the shape string. */
  lemma DimsTextIsPrefix(shape: seq<int>)
    ensures var s := ShapeText(shape); DimsText(shape) == s[..FirstParen(s)]
  {
    var d := DimsText(shape);
    var t := "(" + Decimal.NatToString(|shape|) + ")";
    assert ShapeText(shape) == d + t;
    DimsTextNoParen(shape);
    FirstParenSplit(d, t);
    assert (d + t)[..|d|] == d;
  }

  /** The shape string determines the shape: distinct shapes never print alike. */
  lemma ShapeTextInjective(a: seq<int>, b: seq<int>)
    requires ShapeText(a) == ShapeText(b)
    ensures a == b
  {
    DimsTextIsPrefix(a);
    DimsTextIsPrefix(b);
    DimsTextInjective(a, b);
  }
}
