/**
 Query strings between client and supervisor: sessionSocketUrl() prints the access token into a URL
 (lib/session/supervisor-client.ts), percentDecode(), queryParameter() and pathOf() read it
 (native/src/themisto/access.cpp). Texts are byte strings.
 */
module Query {
  import opened Wrappers

  type Byte = b: nat | b < 256

  type Text = seq<Byte>

  const PERCENT: Byte := 0x25
  const AND: Byte := 0x26
  const PLUS: Byte := 0x2B
  const EQUALS: Byte := 0x3D
  const QUESTION: Byte := 0x3F
  const HASH: Byte := 0x23
  const SPACE: Byte := 0x20

  // ----- reading -----

  /** The value of a hexadecimal digit, -1 for anything else. */
  function HexValue(c: Byte): (v: int)
    ensures -1 <= v < 16
  {
    if 0x30 <= c <= 0x39 then c - 0x30
    else if 0x61 <= c <= 0x66 then c - 0x61 + 10
    else if 0x41 <= c <= 0x46 then c - 0x41 + 10
    else -1
  }

  predicate Escaped(text: Text) {
    |text| > 2 && text[0] == PERCENT && HexValue(text[1]) >= 0 && HexValue(text[2]) >= 0
  }

  function Decode(text: Text): Text {
    if text == [] then []
    else if Escaped(text) then [HexValue(text[1]) * 16 + HexValue(text[2])] + Decode(text[3..])
    else [if text[0] == PLUS then SPACE else text[0]] + Decode(text[1..])
  }

  /** The first place of a byte; the length when there is none. */
  function Find(text: Text, c: Byte): (i: nat)
    ensures i <= |text| && c !in text[..i] && (i < |text| ==> text[i] == c)
  {
    if text == [] || text[0] == c then 0
    else
      var i := Find(text[1..], c);
      assert text[..i + 1] == [text[0]] + text[1..][..i];
      1 + i
  }

  function ValueOf(pair: Text): Text {
    if Find(pair, EQUALS) == |pair| then [] else Decode(pair[Find(pair, EQUALS) + 1..])
  }

  /** The first pair of this name; an empty query is one empty pair. */
  function Lookup(query: Text, name: Text): Option<Text>
    decreases |query|
  {
    var end := Find(query, AND);
    var pair := query[..end];
    if Decode(pair[..Find(pair, EQUALS)]) == name then Some(ValueOf(pair))
    else if end == |query| then None
    else Lookup(query[end + 1..], name)
  }

  function Parameter(uri: Text, name: Text): Option<Text> {
    var question := Find(uri, QUESTION);
    if question == |uri| then None
    else
      var query := uri[question + 1..];
      Lookup(query[..Find(query, HASH)], name)
  }

  /** What comes before the first of `?` and `#`. */
  function PathOf(uri: Text): (path: Text)
    ensures path <= uri && QUESTION !in path && HASH !in path
    ensures |path| < |uri| ==> uri[|path|] == QUESTION || uri[|path|] == HASH
  {
    if uri == [] || uri[0] == QUESTION || uri[0] == HASH then [] else [uri[0]] + PathOf(uri[1..])
  }

  // ----- the loops -----

  lemma DecodeFrom(text: Text, i: nat)
    requires i < |text|
    ensures Decode(text[i..]) ==
      if text[i] == PERCENT && i + 2 < |text| && HexValue(text[i + 1]) >= 0 && HexValue(text[i + 2]) >= 0
      then [HexValue(text[i + 1]) * 16 + HexValue(text[i + 2])] + Decode(text[i + 3..])
      else [if text[i] == PLUS then SPACE else text[i]] + Decode(text[i + 1..])
  {
    var rest := text[i..];
    assert rest[1..] == text[i + 1..];
    assert |rest| > 2 ==> rest[3..] == text[i + 3..];
  }

  lemma Regroup(front: Text, b: Byte, back: Text)
    ensures front + ([b] + back) == front + [b] + back
  {
  }

  method PercentDecode(text: Text) returns (out: Text)
    ensures out == Decode(text)
  {
    out := [];
    var i := 0;
    while i < |text|
      invariant 0 <= i <= |text| && out + Decode(text[i..]) == Decode(text)
    {
      DecodeFrom(text, i);
      if text[i] == PERCENT && i + 2 < |text| && HexValue(text[i + 1]) >= 0 && HexValue(text[i + 2]) >= 0 {
        var b := HexValue(text[i + 1]) * 16 + HexValue(text[i + 2]);
        Regroup(out, b, Decode(text[i + 3..]));
        out := out + [b];
        i := i + 2;
      } else {
        var b := if text[i] == PLUS then SPACE else text[i];
        Regroup(out, b, Decode(text[i + 1..]));
        out := out + [b];
      }
      i := i + 1;
    }
  }

  method FindFrom(text: Text, c: Byte, start: nat) returns (i: nat)
    requires start <= |text|
    ensures i == start + Find(text[start..], c)
  {
    i := start;
    while i < |text| && text[i] != c
      invariant start <= i <= |text| && i + Find(text[i..], c) == start + Find(text[start..], c)
    {
      assert text[i..][1..] == text[i + 1..];
      i := i + 1;
    }
  }

  lemma LookupFrom(query: Text, name: Text, start: nat, end: nat)
    requires start <= |query| && end == start + Find(query[start..], AND)
    ensures var pair := query[start..end];
            Lookup(query[start..], name) ==
              if Decode(pair[..Find(pair, EQUALS)]) == name then Some(ValueOf(pair))
              else if end == |query| then None
              else Lookup(query[end + 1..], name)
  {
    var rest := query[start..];
    assert rest[..end - start] == query[start..end];
    if end < |query| {
      assert rest[end - start + 1..] == query[end + 1..];
    }
  }

  /** One pair of a query, if its key is the name asked for. */
  method ReadPair(pair: Text, name: Text) returns (value: Option<Text>)
    ensures value == if Decode(pair[..Find(pair, EQUALS)]) == name then Some(ValueOf(pair)) else None
  {
    var equals := FindFrom(pair, EQUALS, 0);
    assert pair[0..] == pair;
    var key := PercentDecode(pair[..equals]);
    if key != name {
      return None;
    }
    if equals == |pair| {
      return Some([]);
    }
    var found := PercentDecode(pair[equals + 1..]);
    return Some(found);
  }

  /** The pair up to here is the one asked for, or it is looked for behind it. */
  lemma PairOrRest(query: Text, name: Text, start: nat, end: nat, value: Option<Text>)
    requires start <= |query| && end == start + Find(query[start..], AND)
    requires var pair := query[start..end];
             value == if Decode(pair[..Find(pair, EQUALS)]) == name then Some(ValueOf(pair)) else None
    ensures Lookup(query[start..], name)
         == if value.Some? || end == |query| then value else Lookup(query[end + 1..], name)
  {
    LookupFrom(query, name, start, end);
  }

  method ReadQuery(query: Text, name: Text) returns (value: Option<Text>)
    ensures value == Lookup(query, name)
  {
    var start := 0;
    assert query[0..] == query;
    while start <= |query|
      invariant 0 <= start <= |query| + 1
      invariant Lookup(query, name) == if start <= |query| then Lookup(query[start..], name) else None
    {
      var end := FindFrom(query, AND, start);
      value := ReadPair(query[start..end], name);
      PairOrRest(query, name, start, end, value);
      if value.Some? {
        return;
      }
      start := end + 1;
    }
    return None;
  }

  method QueryParameter(uri: Text, name: Text) returns (value: Option<Text>)
    ensures value == Parameter(uri, name)
  {
    var question := FindFrom(uri, QUESTION, 0);
    assert uri[0..] == uri;
    if question == |uri| {
      return None;
    }
    var query := uri[question + 1..];
    var hash := FindFrom(query, HASH, 0);
    assert query[0..] == query;
    value := ReadQuery(query[..hash], name);
  }

  // ----- printing -----

  /** The bytes encodeURIComponent leaves as they are. */
  predicate Unreserved(b: Byte) {
    || 0x41 <= b <= 0x5A || 0x61 <= b <= 0x7A || 0x30 <= b <= 0x39
    || b == 0x2D || b == 0x5F || b == 0x2E || b == 0x21 || b == 0x7E || b == 0x2A || b == 0x27 || b == 0x28 || b == 0x29
  }

  function HexDigit(v: nat): Byte
    requires v < 16
  {
    if v < 10 then 0x30 + v else 0x41 + v - 10
  }

  function EncodeByte(b: Byte): Text {
    if Unreserved(b) then [b] else [PERCENT, HexDigit(b / 16), HexDigit(b % 16)]
  }

  function Encode(text: Text): Text {
    if text == [] then [] else EncodeByte(text[0]) + Encode(text[1..])
  }

  datatype Pair = Pair(key: Text, value: Text)

  function PrintPair(p: Pair): Text {
    Encode(p.key) + [EQUALS] + Encode(p.value)
  }

  function PrintQuery(pairs: seq<Pair>): Text {
    if pairs == [] then []
    else if |pairs| == 1 then PrintPair(pairs[0])
    else PrintPair(pairs[0]) + [AND] + PrintQuery(pairs[1..])
  }

  function Print(path: Text, pairs: seq<Pair>): Text {
    path + [QUESTION] + PrintQuery(pairs)
  }

  /** "token" */
  const TOKEN: Text := [0x74, 0x6F, 0x6B, 0x65, 0x6E]

  /** A session's URL: with the token when there is one. */
  function SocketUrl(base: Text, token: Text): Text {
    if token == [] then base else base + [QUESTION] + TOKEN + [EQUALS] + Encode(token)
  }

  // ----- and reading what was printed -----

  lemma DecodeByte(b: Byte, rest: Text)
    ensures Decode(EncodeByte(b) + rest) == [b] + Decode(rest)
  {
    var text := EncodeByte(b) + rest;
    if Unreserved(b) {
      assert text[1..] == rest;
    } else {
      assert text[3..] == rest;
      assert HexValue(HexDigit(b / 16)) == b / 16 && HexValue(HexDigit(b % 16)) == b % 16;
    }
  }

  /** Decoding undoes encoding. */
  lemma {:induction false} DecodeEncode(text: Text)
    ensures Decode(Encode(text)) == text
  {
    if text != [] {
      DecodeByte(text[0], Encode(text[1..]));
      DecodeEncode(text[1..]);
    }
  }

  /** No separator is left in an encoded text. */
  lemma {:induction false} EncodePlain(text: Text)
    ensures forall c :: c in Encode(text) ==> c != AND && c != EQUALS && c != QUESTION && c != HASH && c != PLUS
  {
    if text != [] {
      EncodePlain(text[1..]);
    }
  }

  lemma {:induction false} FindAfter(front: Text, c: Byte, back: Text)
    requires c !in front
    ensures Find(front + [c] + back, c) == |front|
    ensures Find(front, c) == |front|
  {
    if front != [] {
      FindAfter(front[1..], c, back);
      assert (front + [c] + back)[1..] == front[1..] + [c] + back;
    }
  }

  lemma PairParts(key: Text, value: Text)
    requires EQUALS !in key
    ensures var pair := key + [EQUALS] + value;
            Find(pair, EQUALS) == |key| < |pair| && pair[..|key|] == key && pair[|key| + 1..] == value
  {
    FindAfter(key, EQUALS, value);
  }

  lemma PlainPair(p: Pair)
    ensures AND !in PrintPair(p) && HASH !in PrintPair(p) && EQUALS !in Encode(p.key)
  {
    EncodePlain(p.key);
    EncodePlain(p.value);
  }

  /** A printed pair reads back, and holds no separator. */
  lemma LookupPair(p: Pair)
    ensures Decode(PrintPair(p)[..Find(PrintPair(p), EQUALS)]) == p.key
    ensures ValueOf(PrintPair(p)) == p.value
    ensures AND !in PrintPair(p) && HASH !in PrintPair(p)
  {
    PlainPair(p);
    PairParts(Encode(p.key), Encode(p.value));
    DecodeEncode(p.key);
    DecodeEncode(p.value);
  }

  /** The value of the first pair with this key. */
  function FirstOf(pairs: seq<Pair>, name: Text): Option<Text> {
    if pairs == [] then None
    else if pairs[0].key == name then Some(pairs[0].value)
    else FirstOf(pairs[1..], name)
  }

  lemma {:induction false} LookupPrinted(pairs: seq<Pair>, name: Text)
    requires pairs != []
    ensures Lookup(PrintQuery(pairs), name) == FirstOf(pairs, name)
    ensures HASH !in PrintQuery(pairs)
  {
    LookupPair(pairs[0]);
    var pair, query := PrintPair(pairs[0]), PrintQuery(pairs);
    if |pairs| == 1 {
      FindAfter(pair, AND, []);
      assert query[..|pair|] == pair;
      assert FirstOf(pairs[1..], name) == None;
    } else {
      LookupPrinted(pairs[1..], name);
      FindAfter(pair, AND, PrintQuery(pairs[1..]));
      assert query[..|pair|] == pair;
      assert query[|pair| + 1..] == PrintQuery(pairs[1..]);
    }
  }

  /** The query after a path without `?` is what was printed. */
  lemma ParameterOfQuery(path: Text, query: Text, name: Text)
    requires QUESTION !in path && HASH !in query
    ensures Parameter(path + [QUESTION] + query, name) == Lookup(query, name)
  {
    var uri := path + [QUESTION] + query;
    FindAfter(path, QUESTION, query);
    assert uri[|path| + 1..] == query;
    FindAfter(query, HASH, []);
    assert query[..|query|] == query;
  }

  /** Whatever pairs are printed, the first value of the asked key is read. */
  lemma PrintedIsRead(path: Text, pairs: seq<Pair>, name: Text)
    requires QUESTION !in path
    ensures Parameter(Print(path, pairs), name) == FirstOf(pairs, name) <==> pairs != [] || name != []
  {
    if pairs != [] {
      LookupPrinted(pairs, name);
    }
    ParameterOfQuery(path, PrintQuery(pairs), name);
  }

  /** The path is read back exactly when it has no `#` either. */
  lemma {:induction false} PathIsReadIff(path: Text, rest: Text)
    requires QUESTION !in path
    ensures PathOf(path + [QUESTION] + rest) == path <==> HASH !in path
  {
    var uri := path + [QUESTION] + rest;
    if path != [] {
      PathIsReadIff(path[1..], rest);
      assert uri[1..] == path[1..] + [QUESTION] + rest;
      if path[0] != HASH {
        assert PathOf(uri) == [path[0]] + PathOf(uri[1..]);
        assert path == [path[0]] + path[1..];
      }
    }
  }

  /** The token of a session's URL reads back unchanged, and no token as none. */
  lemma TokenIsRead(base: Text, token: Text)
    requires QUESTION !in base
    ensures Parameter(SocketUrl(base, token), TOKEN) == if token == [] then None else Some(token)
  {
    if token == [] {
      FindAfter(base, QUESTION, []);
    } else {
      var pair := Pair(TOKEN, token);
      assert Encode(TOKEN) == TOKEN by {
        EncodeToken();
      }
      assert SocketUrl(base, token) == Print(base, [pair]);
      PrintedIsRead(base, [pair], TOKEN);
    }
  }

  lemma EncodeToken()
    ensures Encode(TOKEN) == TOKEN
  {
    assert TOKEN[1..] == [0x6F, 0x6B, 0x65, 0x6E];
    assert [0x6F, 0x6B, 0x65, 0x6E][1..] == [0x6B, 0x65, 0x6E];
    assert [0x6B, 0x65, 0x6E][1..] == [0x65, 0x6E];
    assert [0x65, 0x6E][1..] == [0x6E];
    assert Encode([0x6E]) == [0x6E];
  }

  // ----- and whatever else is written -----

  /** A hexadecimal digit, in either case. */
  predicate IsDigit(c: Byte, v: nat) {
    || (v < 10 && c == 0x30 + v)
    || (10 <= v < 16 && (c == 0x41 + (v - 10) || c == 0x61 + (v - 10)))
  }

  /** A way to write a byte: as it is, an escape with digits in either case, `+` for a space. */
  predicate Writes(piece: Text, b: Byte) {
    || (piece == [b] && b != PERCENT && b != PLUS)
    || (piece == [PLUS] && b == SPACE)
    || (|piece| == 3 && piece[0] == PERCENT && IsDigit(piece[1], b / 16) && IsDigit(piece[2], b % 16))
  }

  function Concat(pieces: seq<Text>): Text {
    if pieces == [] then [] else pieces[0] + Concat(pieces[1..])
  }

  lemma DecodePiece(piece: Text, b: Byte, rest: Text)
    requires Writes(piece, b)
    ensures Decode(piece + rest) == [b] + Decode(rest)
  {
    var text := piece + rest;
    if |piece| == 3 {
      assert text[3..] == rest;
      assert HexValue(piece[1]) == b / 16 && HexValue(piece[2]) == b % 16;
    } else {
      assert text[1..] == rest;
    }
  }

  /** However its bytes are written, a text is decoded. */
  lemma {:induction false} WrittenIsRead(pieces: seq<Text>, text: Text)
    requires |pieces| == |text| && forall i :: 0 <= i < |text| ==> Writes(pieces[i], text[i])
    ensures Decode(Concat(pieces)) == text
  {
    if text != [] {
      DecodePiece(pieces[0], text[0], Concat(pieces[1..]));
      WrittenIsRead(pieces[1..], text[1..]);
    }
  }

  /** A percent sign that begins no escape stands for itself. */
  lemma StrayPercent(rest: Text)
    requires !(|rest| >= 2 && (exists v, w :: 0 <= v < 16 && 0 <= w < 16 && IsDigit(rest[0], v) && IsDigit(rest[1], w)))
    ensures Decode([PERCENT] + rest) == [PERCENT] + Decode(rest)
  {
    var text := [PERCENT] + rest;
    assert text[1..] == rest;
    if Escaped(text) {
      assert IsDigit(rest[0], HexValue(rest[0])) && IsDigit(rest[1], HexValue(rest[1]));
    }
  }

  /** A pair as it stands in a query: a key, and a value if there is an `=`. */
  datatype Raw = Raw(key: Text, value: Option<Text>)

  predicate IsRaw(r: Raw) {
    && AND !in r.key && EQUALS !in r.key && HASH !in r.key
    && (r.value.Some? ==> AND !in r.value.value && HASH !in r.value.value)
  }

  function RawPair(r: Raw): Text {
    if r.value.Some? then r.key + [EQUALS] + r.value.value else r.key
  }

  function RawQuery(rs: seq<Raw>): Text {
    if rs == [] then []
    else if |rs| == 1 then RawPair(rs[0])
    else RawPair(rs[0]) + [AND] + RawQuery(rs[1..])
  }

  /** The value of the first pair whose key is the name; a key alone has an empty one. */
  function FirstRaw(rs: seq<Raw>, name: Text): Option<Text> {
    if rs == [] then None
    else if Decode(rs[0].key) == name
    then Some(if rs[0].value.Some? then Decode(rs[0].value.value) else [])
    else FirstRaw(rs[1..], name)
  }

  lemma RawParts(r: Raw)
    requires IsRaw(r)
    ensures var pair := RawPair(r);
            && AND !in pair && HASH !in pair
            && Find(pair, EQUALS) == |r.key| <= |pair| && pair[..|r.key|] == r.key
            && ValueOf(pair) == if r.value.Some? then Decode(r.value.value) else []
  {
    if r.value.Some? {
      PairParts(r.key, r.value.value);
    } else {
      FindAfter(r.key, EQUALS, []);
    }
  }

  lemma {:induction false} LookupRaw(rs: seq<Raw>, name: Text)
    requires rs != [] && forall i :: 0 <= i < |rs| ==> IsRaw(rs[i])
    ensures Lookup(RawQuery(rs), name) == FirstRaw(rs, name)
    ensures HASH !in RawQuery(rs)
  {
    RawParts(rs[0]);
    var pair, query := RawPair(rs[0]), RawQuery(rs);
    if |rs| == 1 {
      FindAfter(pair, AND, []);
      assert query[..|pair|] == pair;
      assert FirstRaw(rs[1..], name) == None;
    } else {
      LookupRaw(rs[1..], name);
      FindAfter(pair, AND, RawQuery(rs[1..]));
      assert query[..|pair|] == pair;
      assert query[|pair| + 1..] == RawQuery(rs[1..]);
    }
  }

  lemma QueryIsCutOut(path: Text, query: Text, fragment: Text, name: Text)
    requires QUESTION !in path && HASH !in query && (fragment == [] || fragment[0] == HASH)
    ensures Parameter(path + [QUESTION] + query + fragment, name) == Lookup(query, name)
  {
    var uri := path + [QUESTION] + query + fragment;
    FindAfter(path, QUESTION, query + fragment);
    assert uri == path + [QUESTION] + (query + fragment);
    assert uri[|path| + 1..] == query + fragment;
    if fragment == [] {
      assert query + fragment == query;
      FindAfter(query, HASH, []);
    } else {
      FindAfter(query, HASH, fragment[1..]);
      assert query + fragment == query + [HASH] + fragment[1..];
    }
    assert (query + fragment)[..|query|] == query;
  }

  /** Of any URL with a query: the first pair of the name is read, whatever comes before `?` and after `#`. */
  lemma AnyQueryIsRead(path: Text, rs: seq<Raw>, fragment: Text, name: Text)
    requires QUESTION !in path && rs != [] && forall i :: 0 <= i < |rs| ==> IsRaw(rs[i])
    requires fragment == [] || fragment[0] == HASH
    ensures Parameter(path + [QUESTION] + RawQuery(rs) + fragment, name) == FirstRaw(rs, name)
  {
    LookupRaw(rs, name);
    QueryIsCutOut(path, RawQuery(rs), fragment, name);
  }

  /** And of one without: nothing. */
  lemma NoQueryNoParameter(uri: Text, name: Text)
    requires QUESTION !in uri
    ensures Parameter(uri, name) == None
  {
    FindAfter(uri, QUESTION, []);
  }
}
