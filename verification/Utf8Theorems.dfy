/**
 What the UTF-8 check of the message logger decides (native/src/adrastea/utils/logger_impl.cpp):
 exactly the grammar in section 4 of RFC 3629, which is to say the encodings, as section 3 gives
 them, of sequences of Unicode scalar values; and each time the automaton accepts, the code point it
 has built is the one that encodes to the bytes just read.
 */
module Utf8Theorems {
  import opened Folds
  import opened Utf8Classes
  import opened Utf8

  // ----- bytes and their classes -----

  function Classes(bytes: seq<bv8>): (classes: seq<nat>)
    ensures |classes| == |bytes|
  {
    Map(ClassOf, bytes)
  }

  lemma DecodeState(d: Dfa, byte: bv8)
    ensures Decode(d, byte).state == NextState(d.state, ClassOf(byte))
  {
  }

  /** The state after some bytes is the automaton's after their classes. */
  lemma RunState(d: Dfa, bytes: seq<bv8>)
    ensures Run(d, bytes).state == Go(d.state, Classes(bytes))
  {
    var h := (d: Dfa) => d.state;
    forall d, byte ensures h(Decode(d, byte)) == NextState(h(d), ClassOf(byte)) {
      DecodeState(d, byte);
    }
    FoldSimulates(Decode, NextState, h, ClassOf, d, bytes);
    GoIsFold(d.state, Classes(bytes));
  }

  /** Each class by the bytes it has. */
  lemma ClassBytes(byte: bv8)
    ensures var cls := ClassOf(byte);
      && (cls == 0 <==> byte <= 0x7F) && (TailClass(cls) <==> IsTail(byte))
      && (cls == 1 <==> 0x80 <= byte <= 0x8F) && (cls == 9 <==> 0x90 <= byte <= 0x9F)
      && (cls == 7 <==> 0xA0 <= byte <= 0xBF)
      && (cls == 2 <==> 0xC2 <= byte <= 0xDF)
      && (cls == 0xA <==> byte == 0xE0) && (cls == 4 <==> byte == 0xED)
      && (cls == 3 <==> 0xE1 <= byte <= 0xEC || 0xEE <= byte <= 0xEF)
      && (cls == 0xB <==> byte == 0xF0) && (cls == 6 <==> 0xF1 <= byte <= 0xF3) && (cls == 5 <==> byte == 0xF4)
  {
  }

  lemma CharClasses3(c: seq<bv8>)
    requires |c| == 3
    ensures IsChar(c) <==> IsCharOf(Classes(c))
  {
    CharOf3(ClassOf(c[0]), ClassOf(c[1]), ClassOf(c[2]));
    assert Classes(c) == [ClassOf(c[0]), ClassOf(c[1]), ClassOf(c[2])];
    ClassBytes(c[0]);
    ClassBytes(c[1]);
    ClassBytes(c[2]);
  }

  lemma CharClasses4(c: seq<bv8>)
    requires |c| == 4
    ensures IsChar(c) <==> IsCharOf(Classes(c))
  {
    CharOf4(ClassOf(c[0]), ClassOf(c[1]), ClassOf(c[2]), ClassOf(c[3]));
    assert Classes(c) == [ClassOf(c[0]), ClassOf(c[1]), ClassOf(c[2]), ClassOf(c[3])];
    ClassBytes(c[0]);
    ClassBytes(c[1]);
    ClassBytes(c[2]);
    ClassBytes(c[3]);
  }

  /** The grammar's characters are the automaton's. */
  lemma CharClasses(c: seq<bv8>)
    ensures IsChar(c) <==> IsCharOf(Classes(c))
  {
    if IsCharOf(Classes(c)) {
      CharLength(Classes(c));
    }
    if |c| == 1 {
      ClassBytes(c[0]);
      CharOf1(ClassOf(c[0]));
      assert Classes(c) == [ClassOf(c[0])];
    } else if |c| == 2 {
      ClassBytes(c[0]);
      ClassBytes(c[1]);
      CharOf2(ClassOf(c[0]), ClassOf(c[1]));
      assert Classes(c) == [ClassOf(c[0]), ClassOf(c[1])];
    } else if |c| == 3 {
      CharClasses3(c);
    } else if |c| == 4 {
      CharClasses4(c);
    }
  }

  lemma {:induction false} OctetsClasses(bytes: seq<bv8>)
    ensures IsOctets(bytes) <==> AreCharsOf(Classes(bytes))
    decreases |bytes|
  {
    if bytes != [] {
      if IsOctets(bytes) {
        var n :| 0 < n <= |bytes| && IsChar(bytes[..n]) && IsOctets(bytes[n..]);
        CharClasses(bytes[..n]);
        MapSplit(ClassOf, bytes, n);
        OctetsClasses(bytes[n..]);
      }
      if AreCharsOf(Classes(bytes)) {
        var n :| 0 < n <= |bytes| && IsCharOf(Classes(bytes)[..n]) && AreCharsOf(Classes(bytes)[n..]);
        MapSplit(ClassOf, bytes, n);
        CharClasses(bytes[..n]);
        OctetsClasses(bytes[n..]);
      }
    }
  }

  /** The check accepts exactly the grammar. */
  lemma AcceptsIffOctets(codep: bv32, bytes: seq<bv8>)
    ensures Run(Dfa(0, codep), bytes).state == 0 <==> IsOctets(bytes)
  {
    RunState(Dfa(0, codep), bytes);
    AcceptsIffChars(Classes(bytes));
    OctetsClasses(bytes);
  }
}
