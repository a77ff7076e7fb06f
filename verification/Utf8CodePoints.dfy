/**
 The code points the UTF-8 check builds (native/src/adrastea/utils/logger_impl.cpp): each time it
 accepts, the one whose encoding, as section 3 of RFC 3629 gives it, is the bytes just read. So what
 it accepts is what encodes some sequence of Unicode scalar values, and nothing else.
 */
module Utf8CodePoints {
  import opened Folds
  import opened Utf8Classes
  import opened Utf8
  import opened Utf8Theorems

  predicate IsScalar(codep: bv32) {
    codep <= 0xD7FF || 0xE000 <= codep <= 0x10FFFF
  }

  /** The lowest six bits of a code point, under the mark of a tail byte. */
  function TailByte(codep: bv32): bv8 {
    0x80 | ((codep & 0x3F) as bv8)
  }

  function Encode(codep: bv32): seq<bv8>
    requires IsScalar(codep)
  {
    if codep <= 0x7F then [codep as bv8]
    else if codep <= 0x7FF then [0xC0 | ((codep >> 6) as bv8), TailByte(codep)]
    else if codep <= 0xFFFF then [0xE0 | ((codep >> 12) as bv8), TailByte(codep >> 6), TailByte(codep)]
    else [0xF0 | ((codep >> 18) as bv8), TailByte(codep >> 12), TailByte(codep >> 6), TailByte(codep)]
  }

  /** The bits that tail bytes add. */
  function BitsFrom(codep: bv32, rest: seq<bv8>): bv32 {
    Fold(MoreBits, codep, rest)
  }

  /** The bits a character's bytes carry. */
  function Bits(c: seq<bv8>): bv32
    requires c != []
  {
    BitsFrom(FirstBits(ClassOf(c[0]), c[0]), c[1..])
  }

  // ----- the automaton computes them -----

  /** A character is accepted at its end and not before. */
  lemma RunChar(codep: bv32, c: seq<bv8>)
    requires IsChar(c)
    ensures Run(Dfa(0, codep), c).state == 0
    ensures forall k :: 0 < k < |c| ==> Run(Dfa(0, codep), c[..k]).state != 0
  {
    CharClasses(c);
    GoChar(Classes(c));
    RunState(Dfa(0, codep), c);
    forall k | 0 < k < |c| ensures Run(Dfa(0, codep), c[..k]).state != 0 {
      RunState(Dfa(0, codep), c[..k]);
      MapSplit(ClassOf, c, k);
    }
  }

  lemma DecodeAdds(d: Dfa, byte: bv8)
    ensures d.state != 0 ==> Decode(d, byte).codep == MoreBits(d.codep, byte)
    ensures d.state == 0 ==> Decode(d, byte).codep == FirstBits(ClassOf(byte), byte)
  {
  }

  /** Until it accepts again, the automaton adds six bits with each byte. */
  lemma RunCodePoint(codep: bv32, c: seq<bv8>)
    requires IsChar(c)
    ensures Run(Dfa(0, codep), c).codep == Bits(c)
  {
    RunChar(codep, c);
    DecodeAdds(Dfa(0, codep), c[0]);
    var h, p := (d: Dfa) => d.codep, (d: Dfa) => d.state != 0;
    forall d: Dfa, byte | p(d) ensures h(Decode(d, byte)) == MoreBits(h(d), byte) {
      DecodeAdds(d, byte);
    }
    FoldWhileAfterFirst(Decode, MoreBits, h, p, Dfa(0, codep), c);
  }

  lemma RunBits(codep: bv32, c: seq<bv8>)
    requires IsChar(c)
    ensures Run(Dfa(0, codep), c) == Dfa(0, Bits(c))
  {
    RunCodePoint(codep, c);
    RunChar(codep, c);
  }

  // ----- and they are the scalar values -----

  lemma FirstBits1(a: bv8)
    requires a <= 0x7F
    ensures FirstBits(ClassOf(a), a) == a as bv32
  {
  }

  lemma FirstBits2(a: bv8)
    requires 0xC2 <= a <= 0xDF
    ensures FirstBits(ClassOf(a), a) == (a & 0x1F) as bv32
  {
  }

  lemma FirstBits3(a: bv8)
    requires 0xE0 <= a <= 0xEF
    ensures FirstBits(ClassOf(a), a) == (a & 0x0F) as bv32
  {
  }

  lemma FirstBits4(a: bv8)
    requires 0xF0 <= a <= 0xF4
    ensures FirstBits(ClassOf(a), a) == (a & 0x07) as bv32
  {
  }

  lemma BitsFrom1(codep: bv32, b: bv8)
    ensures BitsFrom(codep, [b]) == MoreBits(codep, b)
  {
    FoldOne(MoreBits, codep, b);
  }

  lemma BitsFrom2(codep: bv32, b: bv8, c: bv8)
    ensures BitsFrom(codep, [b, c]) == MoreBits(MoreBits(codep, b), c)
  {
    BitsFrom1(codep, b);
    FoldOneMore(MoreBits, codep, [b], c);
    assert [b] + [c] == [b, c];
  }

  lemma BitsFrom3(codep: bv32, b: bv8, c: bv8, d: bv8)
    ensures BitsFrom(codep, [b, c, d]) == MoreBits(MoreBits(MoreBits(codep, b), c), d)
  {
    BitsFrom2(codep, b, c);
    FoldOneMore(MoreBits, codep, [b, c], d);
    assert [b, c] + [d] == [b, c, d];
  }

  lemma Encode2(a: bv8, b: bv8)
    requires 0xC2 <= a <= 0xDF && IsTail(b)
    ensures var codep := MoreBits((a & 0x1F) as bv32, b);
            0x7F < codep <= 0x7FF && Encode(codep) == [a, b]
  {
  }

  lemma Encode3(a: bv8, b: bv8, c: bv8)
    requires 0xE0 <= a <= 0xEF && IsTail(b) && IsTail(c) && (a == 0xE0 ==> 0xA0 <= b) && (a == 0xED ==> b <= 0x9F)
    ensures var codep := MoreBits(MoreBits((a & 0x0F) as bv32, b), c);
            IsScalar(codep) && 0x7FF < codep <= 0xFFFF && Encode(codep) == [a, b, c]
  {
  }

  lemma Encode4(a: bv8, b: bv8, c: bv8, d: bv8)
    requires 0xF0 <= a <= 0xF4 && IsTail(b) && IsTail(c) && IsTail(d) && (a == 0xF0 ==> 0x90 <= b)
             && (a == 0xF4 ==> b <= 0x8F)
    ensures var codep := MoreBits(MoreBits(MoreBits((a & 0x07) as bv32, b), c), d);
            IsScalar(codep) && 0xFFFF < codep && Encode(codep) == [a, b, c, d]
  {
  }

  /** What a character's bytes carry is a scalar value, and its encoding is those bytes. */
  lemma BitsEncode(c: seq<bv8>)
    requires IsChar(c)
    ensures IsScalar(Bits(c)) && Encode(Bits(c)) == c
  {
    if |c| == 1 {
      FirstBits1(c[0]);
    } else if |c| == 2 {
      FirstBits2(c[0]);
      assert c[1..] == [c[1]];
      BitsFrom1((c[0] & 0x1F) as bv32, c[1]);
      Encode2(c[0], c[1]);
    } else if |c| == 3 {
      FirstBits3(c[0]);
      assert c[1..] == [c[1], c[2]];
      BitsFrom2((c[0] & 0x0F) as bv32, c[1], c[2]);
      Encode3(c[0], c[1], c[2]);
    } else {
      FirstBits4(c[0]);
      assert c[1..] == [c[1], c[2], c[3]];
      BitsFrom3((c[0] & 0x07) as bv32, c[1], c[2], c[3]);
      Encode4(c[0], c[1], c[2], c[3]);
    }
  }

  /** The bytes of an encoding, by length: what the grammar asks of them, and the bits they carry. */
  lemma Bytes2(codep: bv32, a: bv8, b: bv8)
    requires 0x7F < codep <= 0x7FF
    requires a == 0xC0 | ((codep >> 6) as bv8) && b == TailByte(codep)
    ensures 0xC2 <= a <= 0xDF && IsTail(b) && MoreBits((a & 0x1F) as bv32, b) == codep
  {
  }

  lemma Bytes3(codep: bv32, a: bv8, b: bv8, c: bv8)
    requires 0x7FF < codep <= 0xFFFF && IsScalar(codep)
    requires a == 0xE0 | ((codep >> 12) as bv8) && b == TailByte(codep >> 6) && c == TailByte(codep)
    ensures 0xE0 <= a <= 0xEF && IsTail(b) && IsTail(c) && (a == 0xE0 ==> 0xA0 <= b) && (a == 0xED ==> b <= 0x9F)
  {
  }

  lemma Joined3(codep: bv32, a: bv8, b: bv8, c: bv8)
    requires codep <= 0xFFFF
    requires a == 0xE0 | ((codep >> 12) as bv8) && b == TailByte(codep >> 6) && c == TailByte(codep)
    ensures MoreBits(MoreBits((a & 0x0F) as bv32, b), c) == codep
  {
  }

  lemma Bytes4(codep: bv32, a: bv8, b: bv8, c: bv8, d: bv8)
    requires 0xFFFF < codep <= 0x10FFFF
    requires a == 0xF0 | ((codep >> 18) as bv8) && b == TailByte(codep >> 12)
    requires c == TailByte(codep >> 6) && d == TailByte(codep)
    ensures 0xF0 <= a <= 0xF4 && IsTail(b) && IsTail(c) && IsTail(d) && (a == 0xF0 ==> 0x90 <= b)
            && (a == 0xF4 ==> b <= 0x8F)
  {
  }

  lemma Joined4(codep: bv32, a: bv8, b: bv8, c: bv8, d: bv8)
    requires codep <= 0x10FFFF
    requires a == 0xF0 | ((codep >> 18) as bv8) && b == TailByte(codep >> 12)
    requires c == TailByte(codep >> 6) && d == TailByte(codep)
    ensures MoreBits(MoreBits(MoreBits((a & 0x07) as bv32, b), c), d) == codep
  {
  }

  lemma Char2(a: bv8, b: bv8, codep: bv32)
    requires 0xC2 <= a <= 0xDF && IsTail(b)
    requires MoreBits((a & 0x1F) as bv32, b) == codep
    ensures IsChar([a, b]) && Bits([a, b]) == codep
  {
    FirstBits2(a);
    assert [a, b][1..] == [b];
    BitsFrom1((a & 0x1F) as bv32, b);
  }

  lemma Char3(a: bv8, b: bv8, c: bv8, codep: bv32)
    requires 0xE0 <= a <= 0xEF && IsTail(b) && IsTail(c) && (a == 0xE0 ==> 0xA0 <= b) && (a == 0xED ==> b <= 0x9F)
    requires MoreBits(MoreBits((a & 0x0F) as bv32, b), c) == codep
    ensures IsChar([a, b, c]) && Bits([a, b, c]) == codep
  {
    FirstBits3(a);
    assert [a, b, c][1..] == [b, c];
    BitsFrom2((a & 0x0F) as bv32, b, c);
  }

  lemma Char4(a: bv8, b: bv8, c: bv8, d: bv8, codep: bv32)
    requires 0xF0 <= a <= 0xF4 && IsTail(b) && IsTail(c) && IsTail(d) && (a == 0xF0 ==> 0x90 <= b)
             && (a == 0xF4 ==> b <= 0x8F)
    requires MoreBits(MoreBits(MoreBits((a & 0x07) as bv32, b), c), d) == codep
    ensures IsChar([a, b, c, d]) && Bits([a, b, c, d]) == codep
  {
    FirstBits4(a);
    assert [a, b, c, d][1..] == [b, c, d];
    BitsFrom3((a & 0x07) as bv32, b, c, d);
  }

  lemma EncodeBits2(codep: bv32, a: bv8, b: bv8)
    requires 0x7F < codep <= 0x7FF && Encode(codep) == [a, b]
    ensures IsChar([a, b]) && Bits([a, b]) == codep
  {
    Bytes2(codep, a, b);
    Char2(a, b, codep);
  }

  lemma EncodeBits3(codep: bv32, a: bv8, b: bv8, c: bv8)
    requires 0x7FF < codep <= 0xFFFF && IsScalar(codep) && Encode(codep) == [a, b, c]
    ensures IsChar([a, b, c]) && Bits([a, b, c]) == codep
  {
    Bytes3(codep, a, b, c);
    Joined3(codep, a, b, c);
    Char3(a, b, c, codep);
  }

  lemma EncodeBits4(codep: bv32, a: bv8, b: bv8, c: bv8, d: bv8)
    requires 0xFFFF < codep <= 0x10FFFF && Encode(codep) == [a, b, c, d]
    ensures IsChar([a, b, c, d]) && Bits([a, b, c, d]) == codep
  {
    Bytes4(codep, a, b, c, d);
    Joined4(codep, a, b, c, d);
    Char4(a, b, c, d, codep);
  }

  /** The encoding of a scalar value is a character that carries it. */
  lemma EncodeBits(codep: bv32)
    requires IsScalar(codep)
    ensures IsChar(Encode(codep)) && Bits(Encode(codep)) == codep
  {
    var e := Encode(codep);
    if codep <= 0x7F {
      FirstBits1(codep as bv8);
    } else if codep <= 0x7FF {
      EncodeBits2(codep, e[0], e[1]);
    } else if codep <= 0xFFFF {
      EncodeBits3(codep, e[0], e[1], e[2]);
    } else {
      EncodeBits4(codep, e[0], e[1], e[2], e[3]);
    }
  }

  // ----- what the check decides -----

  lemma FirstChar(codep: bv32, bytes: seq<bv8>) returns (n: nat)
    requires bytes != [] && Run(Dfa(0, codep), bytes).state == 0
    ensures 0 < n <= |bytes| && IsChar(bytes[..n])
    ensures Run(Dfa(0, codep), bytes[..n]) == Dfa(0, Bits(bytes[..n]))
    ensures Run(Dfa(0, codep), bytes) == Run(Dfa(0, Bits(bytes[..n])), bytes[n..])
  {
    RunState(Dfa(0, codep), bytes);
    n := AcceptedBegins(Classes(bytes));
    MapSplit(ClassOf, bytes, n);
    CharClasses(bytes[..n]);
    RunBits(codep, bytes[..n]);
    FoldSplit(Decode, Dfa(0, codep), bytes, n);
  }

  lemma LastChar(codep: bv32, bytes: seq<bv8>) returns (m: nat)
    requires bytes != [] && Run(Dfa(0, codep), bytes).state == 0
    ensures m < |bytes| && Run(Dfa(0, codep), bytes[..m]).state == 0 && IsChar(bytes[m..])
    ensures forall k :: m < k < |bytes| ==> Run(Dfa(0, codep), bytes[..k]).state != 0
  {
    RunState(Dfa(0, codep), bytes);
    m := AcceptedEnds(Classes(bytes));
    forall k | m <= k < |bytes|
      ensures Run(Dfa(0, codep), bytes[..k]).state == Go(0, Classes(bytes)[..k])
    {
      RunState(Dfa(0, codep), bytes[..k]);
      MapSplit(ClassOf, bytes, k);
    }
    MapSplit(ClassOf, bytes, m);
    CharClasses(bytes[m..]);
  }

  /** Each time the automaton accepts, its code point encodes to the bytes read since it last did. */
  lemma AcceptedCodePoint(codep: bv32, bytes: seq<bv8>) returns (m: nat)
    requires bytes != [] && Run(Dfa(0, codep), bytes).state == 0
    ensures m < |bytes| && Run(Dfa(0, codep), bytes[..m]).state == 0
    ensures forall k :: m < k < |bytes| ==> Run(Dfa(0, codep), bytes[..k]).state != 0
    ensures var built := Run(Dfa(0, codep), bytes).codep; IsScalar(built) && Encode(built) == bytes[m..]
  {
    m := LastChar(codep, bytes);
    BuiltFrom(codep, bytes, m);
    BitsEncode(bytes[m..]);
  }

  lemma BuiltFrom(codep: bv32, bytes: seq<bv8>, m: nat)
    requires m < |bytes| && Run(Dfa(0, codep), bytes[..m]).state == 0 && IsChar(bytes[m..])
    ensures Run(Dfa(0, codep), bytes).codep == Bits(bytes[m..])
  {
    FoldSplit(Decode, Dfa(0, codep), bytes, m);
    RunBits(Run(Dfa(0, codep), bytes[..m]).codep, bytes[m..]);
  }

  ghost predicate AllScalar(codeps: seq<bv32>) {
    forall i :: 0 <= i < |codeps| ==> IsScalar(codeps[i])
  }

  function EncodeAll(codeps: seq<bv32>): seq<bv8>
    requires AllScalar(codeps)
  {
    if codeps == [] then [] else Encode(codeps[0]) + EncodeAll(codeps[1..])
  }

  lemma EncodeAllCons(codep: bv32, more: seq<bv32>)
    requires IsScalar(codep) && AllScalar(more)
    ensures AllScalar([codep] + more) && EncodeAll([codep] + more) == Encode(codep) + EncodeAll(more)
  {
    assert ([codep] + more)[1..] == more;
  }

  lemma CharInFront(c: seq<bv8>, more: seq<bv32>)
    requires IsChar(c) && AllScalar(more)
    ensures AllScalar([Bits(c)] + more) && EncodeAll([Bits(c)] + more) == c + EncodeAll(more)
  {
    BitsEncode(c);
    EncodeAllCons(Bits(c), more);
  }

  lemma {:induction false} EncodedIsAccepted(codep: bv32, codeps: seq<bv32>)
    requires AllScalar(codeps)
    ensures Run(Dfa(0, codep), EncodeAll(codeps)).state == 0
    decreases |codeps|
  {
    if codeps != [] {
      var c := Encode(codeps[0]);
      EncodeBits(codeps[0]);
      RunBits(codep, c);
      FoldAppend(Decode, Dfa(0, codep), c, EncodeAll(codeps[1..]));
      EncodedIsAccepted(Bits(c), codeps[1..]);
    }
  }

  lemma {:induction false} AcceptedIsEncoded(codep: bv32, bytes: seq<bv8>) returns (codeps: seq<bv32>)
    requires Run(Dfa(0, codep), bytes).state == 0
    ensures AllScalar(codeps) && EncodeAll(codeps) == bytes
    decreases |bytes|
  {
    if bytes == [] {
      codeps := [];
    } else {
      var n := FirstChar(codep, bytes);
      var c := bytes[..n];
      var more := AcceptedIsEncoded(Bits(c), bytes[n..]);
      codeps := [Bits(c)] + more;
      CharInFront(c, more);
      assert c + bytes[n..] == bytes;
    }
  }

  lemma Decides(str: seq<bv8>)
    ensures Run(Dfa(0, 0), str).state == 0 <==> IsOctets(str)
    ensures Run(Dfa(0, 0), str).state == 0 <==> exists codeps :: AllScalar(codeps) && EncodeAll(codeps) == str
  {
    AcceptsIffOctets(0, str);
    if Run(Dfa(0, 0), str).state == 0 {
      var codeps := AcceptedIsEncoded(0, str);
    }
    forall codeps | AllScalar(codeps) && EncodeAll(codeps) == str ensures Run(Dfa(0, 0), str).state == 0 {
      EncodedIsAccepted(0, codeps);
    }
  }

  /** isUtf8Valid(): the grammar, or equally the encodings of sequences of scalar values. */
  method IsUtf8Valid(str: seq<bv8>) returns (valid: bool)
    ensures valid <==> IsOctets(str)
    ensures valid <==> exists codeps :: AllScalar(codeps) && EncodeAll(codeps) == str
  {
    var state: State, codepoint: bv32 := 0, 0;
    for i := 0 to |str|
      invariant Dfa(state, codepoint) == Run(Dfa(0, 0), str[..i])
    {
      FoldPrefix(Decode, Dfa(0, 0), str, i);
      state, codepoint := DecodeUtf8(state, codepoint, str[i]);
    }
    assert str[..|str|] == str;
    Decides(str);
    return state == 0;
  }
}
