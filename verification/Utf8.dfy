/**
 The UTF-8 check of the message logger (native/src/adrastea/utils/logger_impl.cpp): a table of 400
 entries, a step on a state and a code point, and a loop over the bytes.
 */
module Utf8 {
  import opened Folds
  import opened Utf8Classes

  // ----- the table, row by row -----

  function Repeat(n: nat, entry: nat): (row: seq<nat>)
    ensures |row| == n && forall i :: 0 <= i < n ==> row[i] == entry
  {
    if n == 0 then [] else [entry] + Repeat(n - 1, entry)
  }

  const ROW_00: seq<nat> := Repeat(128, 0)
  const ROW_80: seq<nat> := Repeat(16, 1) + Repeat(16, 9)
  const ROW_A0: seq<nat> := Repeat(32, 7)
  const ROW_C0: seq<nat> := [8, 8] + Repeat(30, 2)
  const ROW_E0: seq<nat> := [0xA, 3, 3, 3, 3, 3, 3, 3, 3, 3, 3, 3, 3, 4, 3, 3]
  const ROW_F0: seq<nat> := [0xB, 6, 6, 6, 5, 8, 8, 8, 8, 8, 8, 8, 8, 8, 8, 8]
  const ROW_S0: seq<nat> := [0, 1, 2, 3, 5, 8, 7, 1, 1, 1, 4, 6, 1, 1, 1, 1]
  const ROW_S1: seq<nat> := [1, 1, 1, 1, 1, 1, 1, 1, 1, 1, 1, 1, 1, 1, 1, 1]
  const ROW_S2: seq<nat> := [1, 0, 1, 1, 1, 1, 1, 0, 1, 0, 1, 1, 1, 1, 1, 1]
  const ROW_S3: seq<nat> := [1, 2, 1, 1, 1, 1, 1, 2, 1, 2, 1, 1, 1, 1, 1, 1]
  const ROW_S4: seq<nat> := [1, 1, 1, 1, 1, 1, 1, 2, 1, 1, 1, 1, 1, 1, 1, 1]
  const ROW_S5: seq<nat> := [1, 2, 1, 1, 1, 1, 1, 1, 1, 2, 1, 1, 1, 1, 1, 1]
  const ROW_S6: seq<nat> := [1, 1, 1, 1, 1, 1, 1, 3, 1, 3, 1, 1, 1, 1, 1, 1]
  const ROW_S7: seq<nat> := [1, 3, 1, 1, 1, 1, 1, 3, 1, 3, 1, 1, 1, 1, 1, 1]
  const ROW_S8: seq<nat> := [1, 3, 1, 1, 1, 1, 1, 1, 1, 1, 1, 1, 1, 1, 1, 1]

  const BYTES: seq<nat> := (ROW_00 + (ROW_80 + ROW_A0)) + (ROW_C0 + (ROW_E0 + ROW_F0))
  const LOW_STATES: seq<nat> := (ROW_S0 + ROW_S1) + (ROW_S2 + ROW_S3)
  const HIGH_STATES: seq<nat> := (ROW_S4 + ROW_S5) + (ROW_S6 + (ROW_S7 + ROW_S8))
  const STATES: seq<nat> := LOW_STATES + HIGH_STATES
  const TABLE: seq<nat> := BYTES + STATES

  lemma ConcatAt(a: seq<nat>, b: seq<nat>, i: nat)
    requires i < |a| + |b|
    ensures (a + b)[i] == if i < |a| then a[i] else b[i - |a|]
  {
  }

  /** The class the table gives a byte, by ranges. */
  function ClassOf(byte: bv8): (cls: nat)
    ensures cls <= 11
  {
    if byte <= 0x7F then 0
    else if byte <= 0x8F then 1
    else if byte <= 0x9F then 9
    else if byte <= 0xBF then 7
    else if byte <= 0xC1 then 8
    else if byte <= 0xDF then 2
    else if byte == 0xE0 then 0xA
    else if byte == 0xED then 4
    else if byte <= 0xEF then 3
    else if byte == 0xF0 then 0xB
    else if byte <= 0xF3 then 6
    else if byte == 0xF4 then 5
    else 8
  }

  /** The same ranges on the index into the table. */
  function ClassAt(i: nat): nat {
    if i < 0x80 then 0
    else if i < 0x90 then 1
    else if i < 0xA0 then 9
    else if i < 0xC0 then 7
    else if i < 0xC2 then 8
    else if i < 0xE0 then 2
    else if i == 0xE0 then 0xA
    else if i == 0xED then 4
    else if i < 0xF0 then 3
    else if i == 0xF0 then 0xB
    else if i < 0xF4 then 6
    else if i == 0xF4 then 5
    else 8
  }

  lemma ClassOfIndex(byte: bv8)
    ensures ClassOf(byte) == ClassAt(byte as int) && byte as int < 256
  {
  }

  lemma LowBytes(i: nat)
    requires i < 0xC0
    ensures (ROW_00 + (ROW_80 + ROW_A0))[i] == ClassAt(i)
  {
    ConcatAt(ROW_00, ROW_80 + ROW_A0, i);
    if 0x80 <= i {
      ConcatAt(ROW_80, ROW_A0, i - 0x80);
    }
  }

  lemma RowE0At(i: nat)
    requires i < 16
    ensures ROW_E0[i] == ClassAt(0xE0 + i)
  {
  }

  lemma RowF0At(i: nat)
    requires i < 16
    ensures ROW_F0[i] == ClassAt(0xF0 + i)
  {
  }

  lemma HighBytes(i: nat)
    requires 0xC0 <= i < 0x100
    ensures (ROW_C0 + (ROW_E0 + ROW_F0))[i - 0xC0] == ClassAt(i)
  {
    ConcatAt(ROW_C0, ROW_E0 + ROW_F0, i - 0xC0);
    if 0xF0 <= i {
      ConcatAt(ROW_E0, ROW_F0, i - 0xE0);
      RowF0At(i - 0xF0);
    } else if 0xE0 <= i {
      ConcatAt(ROW_E0, ROW_F0, i - 0xE0);
      RowE0At(i - 0xE0);
    }
  }

  lemma ByteClass(byte: bv8)
    ensures |BYTES| == 256 && byte as int < 256 && BYTES[byte as int] == ClassOf(byte)
  {
    var i := byte as int;
    ClassOfIndex(byte);
    ConcatAt(ROW_00 + (ROW_80 + ROW_A0), ROW_C0 + (ROW_E0 + ROW_F0), i);
    if i < 0xC0 {
      LowBytes(i);
    } else {
      HighBytes(i);
    }
  }

  lemma LowOrHigh(i: nat)
    requires i < 144
    ensures |LOW_STATES| == 64 && |HIGH_STATES| == 80 && |STATES| == 144
    ensures STATES[i] == if i < 64 then LOW_STATES[i] else HIGH_STATES[i - 64]
  {
    ConcatAt(LOW_STATES, HIGH_STATES, i);
  }

  lemma StatesAt(state: nat, cls: nat)
    requires state <= 8 && cls < 16
    ensures |STATES| == 144
    ensures STATES[state * 16 + cls] == NextState(state, cls)
  {
    var i := state * 16 + cls;
    LowOrHigh(i);
    if state < 4 {
      assert STATES[i] == LOW_STATES[i];
      LowStatesAt(state, cls);
    } else {
      assert STATES[i] == HIGH_STATES[(state - 4) * 16 + cls];
      HighStatesAt(state, cls);
    }
  }

  lemma FirstRowsAt(cls: nat)
    requires cls < 16
    ensures ROW_S0[cls] == NextState(0, cls) && ROW_S1[cls] == NextState(1, cls)
    ensures ROW_S2[cls] == NextState(2, cls) && ROW_S3[cls] == NextState(3, cls)
  {
  }

  lemma LowStatesAt(state: nat, cls: nat)
    requires state <= 3 && cls < 16
    ensures LOW_STATES[state * 16 + cls] == NextState(state, cls)
  {
    FirstRowsAt(cls);
    ConcatAt(ROW_S0 + ROW_S1, ROW_S2 + ROW_S3, state * 16 + cls);
    if state < 2 {
      ConcatAt(ROW_S0, ROW_S1, state * 16 + cls);
    } else {
      ConcatAt(ROW_S2, ROW_S3, state * 16 + cls - 32);
    }
  }

  lemma RowsAt(cls: nat)
    requires cls < 16
    ensures ROW_S4[cls] == NextState(4, cls) && ROW_S5[cls] == NextState(5, cls)
  {
  }

  lemma LastRowsAt(cls: nat)
    requires cls < 16
    ensures ROW_S6[cls] == NextState(6, cls) && ROW_S7[cls] == NextState(7, cls) && ROW_S8[cls] == NextState(8, cls)
  {
  }

  lemma HighStatesAt(state: nat, cls: nat)
    requires 4 <= state <= 8 && cls < 16
    ensures HIGH_STATES[(state - 4) * 16 + cls] == NextState(state, cls)
  {
    var i := (state - 4) * 16 + cls;
    RowsAt(cls);
    LastRowsAt(cls);
    ConcatAt(ROW_S4 + ROW_S5, ROW_S6 + (ROW_S7 + ROW_S8), i);
    if state < 6 {
      ConcatAt(ROW_S4, ROW_S5, i);
    } else {
      ConcatAt(ROW_S6, ROW_S7 + ROW_S8, i - 32);
      if state > 6 {
        ConcatAt(ROW_S7, ROW_S8, i - 48);
      }
    }
  }

  /** The class of a byte, and where it leads, as the table has them. */
  function Class(byte: bv8): (cls: nat)
    ensures cls == ClassOf(byte)
  {
    ByteClass(byte);
    ConcatAt(BYTES, STATES, byte as int);
    TABLE[byte as int]
  }

  function Next(state: State, cls: nat): (next: State)
    requires cls < 16
    ensures next == NextState(state, cls)
  {
    StatesAt(state, cls);
    assert |BYTES| == 256;
    ConcatAt(BYTES, STATES, 256 + state * 16 + cls);
    TABLE[256 + state * 16 + cls]
  }

  // ----- the automaton -----

  const FULL: bv32 := 0xFF

  datatype Dfa = Dfa(state: State, codep: bv32)

  /** The bits of a first byte that its class leaves. */
  function FirstBits(cls: nat, byte: bv8): bv32
    requires cls < 16
  {
    (FULL >> cls) & (byte as bv32)
  }

  /** Six more bits under those so far. */
  function MoreBits(codep: bv32, byte: bv8): bv32 {
    ((byte & 0x3F) as bv32) | (codep << 6)
  }

  /** decodeUtf8(): the class, the bits the byte adds, and the next state. */
  function Decode(d: Dfa, byte: bv8): Dfa {
    Dfa(Next(d.state, Class(byte)), if d.state != 0 then MoreBits(d.codep, byte) else FirstBits(Class(byte), byte))
  }

  function Run(d: Dfa, bytes: seq<bv8>): Dfa {
    Fold(Decode, d, bytes)
  }

  method DecodeUtf8(state: State, codep: bv32, byte: bv8) returns (state': State, codep': bv32)
    ensures Dfa(state', codep') == Decode(Dfa(state, codep), byte)
  {
    var cls := Class(byte);
    codep' := if state != 0 then MoreBits(codep, byte) else FirstBits(cls, byte);
    state' := Next(state, cls);
  }

  // ----- section 4 of RFC 3629 -----

  predicate IsTail(byte: bv8) {
    0x80 <= byte <= 0xBF
  }

  /** UTF8-char: UTF8-1, UTF8-2, UTF8-3 or UTF8-4. */
  predicate IsChar(c: seq<bv8>) {
    match |c|
    case 1 => c[0] <= 0x7F
    case 2 => 0xC2 <= c[0] <= 0xDF && IsTail(c[1])
    case 3 =>
      || (c[0] == 0xE0 && 0xA0 <= c[1] <= 0xBF && IsTail(c[2]))
      || (0xE1 <= c[0] <= 0xEC && IsTail(c[1]) && IsTail(c[2]))
      || (c[0] == 0xED && 0x80 <= c[1] <= 0x9F && IsTail(c[2]))
      || (0xEE <= c[0] <= 0xEF && IsTail(c[1]) && IsTail(c[2]))
    case 4 =>
      || (c[0] == 0xF0 && 0x90 <= c[1] <= 0xBF && IsTail(c[2]) && IsTail(c[3]))
      || (0xF1 <= c[0] <= 0xF3 && IsTail(c[1]) && IsTail(c[2]) && IsTail(c[3]))
      || (c[0] == 0xF4 && 0x80 <= c[1] <= 0x8F && IsTail(c[2]) && IsTail(c[3]))
    case _ => false
  }

  /** UTF8-octets: any number of them. */
  ghost predicate IsOctets(bytes: seq<bv8>) {
    bytes == [] || exists n :: 0 < n <= |bytes| && IsChar(bytes[..n]) && IsOctets(bytes[n..])
  }
}
