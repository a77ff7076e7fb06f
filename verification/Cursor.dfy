/**
 Cursor positions (tools/playground/lib/cursor.ts): JavaScript counts UTF-16 code units, Jupyter
 counts code points. A lone surrogate is a code point of its own.
 */
module Cursor {
  type Unit = u: nat | u < 0x1_0000

  type Text = seq<Unit>

  predicate IsHigh(u: Unit) {
    0xD800 <= u <= 0xDBFF
  }

  predicate IsLow(u: Unit) {
    0xDC00 <= u <= 0xDFFF
  }

  /** How many units the first code point has. */
  function Width(text: Text): (w: nat)
    requires text != []
    ensures 1 <= w <= 2 && w <= |text|
  {
    if |text| > 1 && IsHigh(text[0]) && IsLow(text[1]) then 2 else 1
  }

  /** Array.from(): the code points of a text. */
  function Points(text: Text): seq<Text> {
    if text == [] then [] else [text[..Width(text)]] + Points(text[Width(text)..])
  }

  function Join(points: seq<Text>): Text {
    if points == [] then [] else points[0] + Join(points[1..])
  }

  function Min(a: nat, b: nat): nat {
    if a < b then a else b
  }

  function ToCodePointIndex(text: Text, utf16Index: nat): nat {
    |Points(text[..Min(utf16Index, |text|)])|
  }

  function ToUtf16Index(text: Text, codePointIndex: nat): nat {
    var points := Points(text);
    |Join(points[..Min(codePointIndex, |points|)])|
  }

  /** A place between two code points, or at an end. */
  ghost predicate IsBoundary(text: Text, i: nat) {
    i <= |text| && Points(text[..i]) + Points(text[i..]) == Points(text)
  }

  // ----- one code point at a time -----

  lemma CodePointsAfterFirst(text: Text, i: nat)
    requires text != []
    ensures i >= Width(text) ==> ToCodePointIndex(text, i) == 1 + ToCodePointIndex(text[Width(text)..], i - Width(text))
    ensures 0 < i < Width(text) ==> ToCodePointIndex(text, i) == 1
    ensures ToCodePointIndex(text, 0) == 0
  {
    var w, n := Width(text), Min(i, |text|);
    var front := text[..n];
    if i >= w {
      assert Width(front) == w;
      assert front[w..] == text[w..][..Min(i - w, |text| - w)];
    } else if 0 < i {
      assert Width(front) == 1 && front[1..] == [];
      assert Points(front) == [front[..1]] + Points([]);
    }
  }

  lemma UnitsAfterFirst(text: Text, k: nat)
    requires text != []
    ensures k > 0 ==> ToUtf16Index(text, k) == Width(text) + ToUtf16Index(text[Width(text)..], k - 1)
    ensures ToUtf16Index(text, 0) == 0
  {
    var points, rest := Points(text), Points(text[Width(text)..]);
    if k > 0 {
      assert points[..Min(k, |points|)][1..] == rest[..Min(k - 1, |rest|)];
    }
  }

  /** Joining the code points gives the text. */
  lemma {:induction false} JoinPoints(text: Text)
    ensures Join(Points(text)) == text
    decreases |text|
  {
    if text != [] {
      JoinPoints(text[Width(text)..]);
      assert Points(text)[1..] == Points(text[Width(text)..]);
    }
  }

  lemma ToUtf16Fits(text: Text, k: nat)
    ensures ToUtf16Index(text, k) <= |text|
    decreases |text|
  {
    if text != [] && k > 0 {
      UnitsAfterFirst(text, k);
      ToUtf16Fits(text[Width(text)..], k - 1);
    }
  }

  // ----- there and back -----

  /** A code point index survives, up to the number of code points. */
  lemma {:induction false} CodePointsThereAndBack(text: Text, k: nat)
    ensures ToCodePointIndex(text, ToUtf16Index(text, k)) == Min(k, |Points(text)|)
    decreases |text|
  {
    if text == [] {
      assert text[..0] == [];
    } else if k == 0 {
      UnitsAfterFirst(text, 0);
      CodePointsAfterFirst(text, 0);
    } else {
      UnitsAfterFirst(text, k);
      CodePointsAfterFirst(text, ToUtf16Index(text, k));
      CodePointsThereAndBack(text[Width(text)..], k - 1);
    }
  }

  lemma BoundaryAtStart(text: Text)
    ensures IsBoundary(text, 0)
  {
    assert text[..0] == [] && text[0..] == text;
  }

  lemma FrontPoints(text: Text, i: nat)
    requires text != [] && Width(text) <= i <= |text|
    ensures Points(text[..i]) == [text[..Width(text)]] + Points(text[Width(text)..][..i - Width(text)])
  {
    var w, front := Width(text), text[..i];
    assert Width(front) == w && front[..w] == text[..w] && front[w..] == text[w..][..i - w];
  }

  lemma SameTail(first: Text, a: seq<Text>, b: seq<Text>, whole: seq<Text>)
    ensures [first] + a + b == [first] + whole <==> a + b == whole
  {
    assert ([first] + a + b)[1..] == a + b && ([first] + whole)[1..] == whole;
    assert [first] + a + b == [first] + (a + b);
  }

  lemma InsideFirst(text: Text)
    requires text != [] && Width(text) == 2
    ensures !IsBoundary(text, 1)
  {
    var front := text[..1];
    assert Points(front) == [front[..1]] + Points(front[1..]);
    assert Points(front)[0] == front[..1] && Points(text)[0] == text[..2];
    assert (Points(front) + Points(text[1..]))[0] == front[..1];
  }

  /** A later boundary of a text is one of its rest. */
  lemma BoundaryAfterFirst(text: Text, i: nat)
    requires text != [] && i <= |text|
    ensures i >= Width(text) ==> (IsBoundary(text, i) <==> IsBoundary(text[Width(text)..], i - Width(text)))
    ensures 0 < i < Width(text) ==> !IsBoundary(text, i)
  {
    var w := Width(text);
    var rest := text[w..];
    if i >= w {
      FrontPoints(text, i);
      assert rest[i - w..] == text[i..];
      SameTail(text[..w], Points(rest[..i - w]), Points(text[i..]), Points(rest));
    } else if 0 < i {
      InsideFirst(text);
    }
  }

  /** A code unit index comes back as the least boundary at or after it. */
  lemma {:induction false} UnitsThereAndBack(text: Text, i: nat)
    requires i <= |text|
    ensures var back := ToUtf16Index(text, ToCodePointIndex(text, i));
            && i <= back <= |text| && IsBoundary(text, back)
            && forall j :: i <= j < back ==> !IsBoundary(text, j)
    decreases |text|
  {
    if text == [] {
      assert text[..0] == [];
    } else if i == 0 {
      CodePointsAfterFirst(text, 0);
      UnitsAfterFirst(text, 0);
      BoundaryAtStart(text);
    } else {
      var w := Width(text);
      var rest, next := text[w..], if i < w then 0 else i - w;
      CodePointsAfterFirst(text, i);
      CodePointsAfterFirst(text, w);
      if i < w {
        assert rest[..0] == [];
      }
      assert ToCodePointIndex(text, i) == 1 + ToCodePointIndex(rest, next);
      UnitsThereAndBack(rest, next);
      UnitsAfterFirst(text, ToCodePointIndex(text, i));
      var back := ToUtf16Index(text, ToCodePointIndex(text, i));
      BoundaryAfterFirst(text, back);
      forall j | i <= j < back ensures !IsBoundary(text, j) {
        BoundaryAfterFirst(text, j);
      }
    }
  }

  // ----- what the code points are -----

  /** A code point as UTF-16 has it: one unit, or the two of a surrogate pair. */
  function Encoded(c: nat): Text
    requires c < 0x11_0000
  {
    if c < 0x1_0000 then [c] else [0xD800 + (c - 0x1_0000) / 0x400, 0xDC00 + (c - 0x1_0000) % 0x400]
  }

  /** Code points a text can stand for: a surrogate stands alone, or the two would be another code point. */
  predicate CodePoints(codes: seq<nat>) {
    && (forall i :: 0 <= i < |codes| ==> codes[i] < 0x11_0000)
    && (forall i, j :: 0 <= i < |codes| && j == i + 1 && j < |codes| ==>
          !(0xD800 <= codes[i] < 0xDC00 && 0xDC00 <= codes[j] < 0xE000))
  }

  function EncodedAll(codes: seq<nat>): Text
    requires CodePoints(codes)
  {
    if codes == [] then [] else Encoded(codes[0]) + EncodedAll(codes[1..])
  }

  lemma WidthOfEncoded(codes: seq<nat>)
    requires CodePoints(codes) && codes != []
    ensures EncodedAll(codes) != [] && Width(EncodedAll(codes)) == |Encoded(codes[0])|
  {
    var text := EncodedAll(codes);
    if codes[0] < 0x1_0000 && |codes| > 1 {
      assert EncodedAll(codes[1..]) == Encoded(codes[1]) + EncodedAll(codes[1..][1..]);
      assert text[1] == Encoded(codes[1])[0];
    }
  }

  /** The code points of a text are those it encodes, lone surrogates among them. */
  lemma {:induction false} PointsOfEncoded(codes: seq<nat>)
    requires CodePoints(codes)
    ensures |Points(EncodedAll(codes))| == |codes|
    ensures forall i :: 0 <= i < |codes| ==> Points(EncodedAll(codes))[i] == Encoded(codes[i])
  {
    if codes != [] {
      var text := EncodedAll(codes);
      WidthOfEncoded(codes);
      PointsOfEncoded(codes[1..]);
      assert text[..Width(text)] == Encoded(codes[0]) && text[Width(text)..] == EncodedAll(codes[1..]);
    }
  }

  /** Every text stands for code points. */
  lemma {:induction false} EveryTextIsEncoded(text: Text) returns (codes: seq<nat>)
    ensures CodePoints(codes) && EncodedAll(codes) == text
    decreases |text|
  {
    if text == [] {
      codes := [];
    } else {
      var w := Width(text);
      var rest := EveryTextIsEncoded(text[w..]);
      var high: int, low: int := text[0], text[w - 1];
      var first := if w == 1 then high else 0x1_0000 + (high - 0xD800) * 0x400 + (low - 0xDC00);
      codes := [first] + rest;
      if rest != [] {
        assert text[w] == Encoded(rest[0])[0];
      }
      assert codes[1..] == rest;
      assert Encoded(first) == text[..w];
      assert text == text[..w] + text[w..];
    }
  }

  lemma {:induction false} EncodedFront(codes: seq<nat>, k: nat)
    requires CodePoints(codes) && k <= |codes|
    ensures CodePoints(codes[..k]) && EncodedAll(codes[..k]) <= EncodedAll(codes)
  {
    if k > 0 {
      EncodedFront(codes[1..], k - 1);
      assert codes[..k][1..] == codes[1..][..k - 1];
    }
  }

  /** Either index of the place before a code point is the other's: as many units as encode what is before it. */
  lemma IndexesOfEncoded(codes: seq<nat>, k: nat)
    requires CodePoints(codes) && k <= |codes|
    ensures CodePoints(codes[..k])
    ensures ToUtf16Index(EncodedAll(codes), k) == |EncodedAll(codes[..k])|
    ensures ToCodePointIndex(EncodedAll(codes), |EncodedAll(codes[..k])|) == k
  {
    var text, front := EncodedAll(codes), EncodedAll(codes[..k]);
    EncodedFront(codes, k);
    PointsOfEncoded(codes);
    PointsOfEncoded(codes[..k]);
    assert Points(text)[..k] == Points(front);
    JoinPoints(front);
    assert text[..|front|] == front;
  }
}
