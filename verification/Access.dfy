/**
 Who gets into the supervisor (native/src/themisto/access.cpp): nobody from a web page, everybody
 when there is no token, and otherwise whoever shows it, in a header or in the query.
 */
module Access {
  import opened Wrappers
  import opened Query

  datatype Verdict = Allowed | FromBrowser | BadToken

  /** "bearer ", and as supervisorHeaders() prints it. */
  const SCHEME: Text := [0x62, 0x65, 0x61, 0x72, 0x65, 0x72, 0x20]
  const BEARER: Text := [0x42, 0x65, 0x61, 0x72, 0x65, 0x72, 0x20]

  function Lower(c: Byte): Byte {
    if 0x41 <= c <= 0x5A then c + 0x20 else c
  }

  function TrimFront(text: Text): Text {
    if text != [] && text[0] == SPACE then TrimFront(text[1..]) else text
  }

  function TrimBack(text: Text): Text {
    if text != [] && text[|text| - 1] == SPACE then TrimBack(text[..|text| - 1]) else text
  }

  predicate HasScheme(authorization: Text) {
    |authorization| > |SCHEME| && forall i :: 0 <= i < |SCHEME| ==> Lower(authorization[i]) == SCHEME[i]
  }

  /** The token after the scheme, without spaces around it. */
  function Bearer(authorization: Text): Option<Text> {
    if !HasScheme(authorization) then None
    else
      var value := TrimBack(TrimFront(authorization[|SCHEME|..]));
      if value == [] then None else Some(value)
  }

  method BearerToken(authorization: Text) returns (token: Option<Text>)
    ensures token == Bearer(authorization)
  {
    if |authorization| <= |SCHEME| {
      return None;
    }
    for i := 0 to |SCHEME|
      invariant forall j :: 0 <= j < i ==> Lower(authorization[j]) == SCHEME[j]
    {
      if Lower(authorization[i]) != SCHEME[i] {
        return None;
      }
    }
    var value := authorization[|SCHEME|..];
    while value != [] && value[0] == SPACE
      invariant TrimFront(value) == TrimFront(authorization[|SCHEME|..])
      decreases |value|
    {
      value := value[1..];
    }
    while value != [] && value[|value| - 1] == SPACE
      invariant TrimBack(value) == TrimBack(TrimFront(authorization[|SCHEME|..]))
      decreases |value|
    {
      value := value[..|value| - 1];
    }
    return if value == [] then None else Some(value);
  }

  predicate Matches(presented: Option<Text>, token: Text) {
    token != [] && presented == Some(token)
  }

  function Check(origin: Text, authorization: Text, uri: Text, token: Text): Verdict {
    if origin != [] then FromBrowser
    else if token == [] then Allowed
    else if Matches(Bearer(authorization), token) || Matches(Parameter(uri, TOKEN), token) then Allowed
    else BadToken
  }

  // ----- the client's two ways in -----

  lemma TrimShrinks(text: Text)
    ensures |TrimFront(text)| <= |text| && |TrimBack(text)| <= |text|
    ensures TrimBack(TrimFront(text)) == text <==>
              text == [] || (text[0] != SPACE && text[|text| - 1] != SPACE)
  {
    TrimsShrink(text);
    TrimsShrink(TrimFront(text));
    if text != [] && text[0] == SPACE {
      TrimsShrink(text[1..]);
    } else if text != [] && text[|text| - 1] == SPACE {
      TrimsShrink(text[..|text| - 1]);
    }
  }

  lemma {:induction false} TrimsShrink(text: Text)
    ensures |TrimFront(text)| <= |text| && |TrimBack(text)| <= |text|
    decreases |text|
  {
    if text != [] {
      TrimsShrink(text[1..]);
      TrimsShrink(text[..|text| - 1]);
    }
  }

  /** The header a client sends reads back as its token exactly when no space is at either end of it. */
  lemma HeaderIsReadIff(token: Text)
    ensures Bearer(BEARER + token) == Some(token) <==>
              token != [] && token[0] != SPACE && token[|token| - 1] != SPACE
  {
    assert (BEARER + token)[|SCHEME|..] == token;
    TrimShrinks(token);
    if token != [] {
      assert HasScheme(BEARER + token);
    }
  }

  /** A session's URL lets in exactly who has the supervisor's token, when it has one. */
  lemma UrlLetsInIff(base: Text, presented: Text, token: Text)
    requires QUESTION !in base
    ensures Check([], [], SocketUrl(base, presented), token) == Allowed <==> token == [] || presented == token
  {
    TokenIsRead(base, presented);
  }

  /** And so does the header, of a request whose URL shows nothing. */
  lemma HeaderLetsInIff(path: Text, presented: Text, token: Text)
    requires QUESTION !in path
    requires presented != [] && presented[0] != SPACE && presented[|presented| - 1] != SPACE
    ensures Check([], BEARER + presented, path, token) == Allowed <==> token == [] || presented == token
  {
    HeaderIsReadIff(presented);
    FindAfter(path, QUESTION, []);
  }

  // ----- everybody else -----

  /** Nobody gets in from a web page: not with the token in the header, nor in the URL, nor where there is none. */
  lemma NobodyFromAPage(origin: Text, authorization: Text, uri: Text, token: Text)
    ensures Check(origin, authorization, uri, token) == FromBrowser <==> origin != []
  {
  }

  predicate Spaces(text: Text) {
    forall i :: 0 <= i < |text| ==> text[i] == 0x20
  }

  /** "bearer ", each letter in either case. */
  predicate IsScheme(text: Text) {
    |text| == 7 && forall i :: 0 <= i < 7 ==> text[i] == SCHEME[i] || (SCHEME[i] >= 0x61 && text[i] == SCHEME[i] - 0x20)
  }

  /** A token as it can be shown: not empty, and no space at either end. */
  predicate Showable(token: Text) {
    token != [] && token[0] != 0x20 && token[|token| - 1] != 0x20
  }

  /** A header: the scheme, and the token with any number of spaces on both sides. */
  ghost predicate Shows(authorization: Text, token: Text) {
    exists scheme, front, back {:trigger IsScheme(scheme), Spaces(front), Spaces(back)} ::
      IsScheme(scheme) && Spaces(front) && Spaces(back) && Showable(token)
      && authorization == scheme + front + token + back
  }

  lemma {:induction false} TrimFrontOf(front: Text, rest: Text)
    requires Spaces(front) && (rest == [] || rest[0] != SPACE)
    ensures TrimFront(front + rest) == rest
  {
    if front != [] {
      TrimFrontOf(front[1..], rest);
      assert (front + rest)[1..] == front[1..] + rest;
    } else {
      assert front + rest == rest;
    }
  }

  lemma {:induction false} TrimBackOf(rest: Text, back: Text)
    requires Spaces(back) && (rest == [] || rest[|rest| - 1] != SPACE)
    ensures TrimBack(rest + back) == rest
  {
    if back != [] {
      TrimBackOf(rest, back[..|back| - 1]);
      assert (rest + back)[..|rest + back| - 1] == rest + back[..|back| - 1];
    } else {
      assert rest + back == rest;
    }
  }

  lemma {:induction false} TrimmedFront(text: Text) returns (front: Text)
    ensures Spaces(front) && text == front + TrimFront(text)
    ensures TrimFront(text) == [] || TrimFront(text)[0] != SPACE
  {
    if text != [] && text[0] == SPACE {
      var rest := TrimmedFront(text[1..]);
      front := [text[0]] + rest;
    } else {
      front := [];
    }
  }

  lemma {:induction false} TrimmedBack(text: Text) returns (back: Text)
    ensures Spaces(back) && text == TrimBack(text) + back
    ensures TrimBack(text) == [] || TrimBack(text)[|TrimBack(text)| - 1] != SPACE
    ensures TrimBack(text) <= text
  {
    if text != [] && text[|text| - 1] == SPACE {
      var rest := TrimmedBack(text[..|text| - 1]);
      back := rest + [text[|text| - 1]];
    } else {
      back := [];
    }
  }

  lemma SchemeIs(authorization: Text)
    ensures HasScheme(authorization) <==> |authorization| > 7 && IsScheme(authorization[..7])
  {
    if |authorization| > 7 {
      forall i | 0 <= i < 7
        ensures Lower(authorization[i]) == SCHEME[i] <==>
                authorization[i] == SCHEME[i] || (SCHEME[i] >= 0x61 && authorization[i] == SCHEME[i] - 0x20)
      {
        assert SCHEME[i] in SCHEME;
      }
      assert forall i :: 0 <= i < 7 ==> authorization[..7][i] == authorization[i];
    }
  }

  /** The token read from a header is the one it shows, and there is none exactly when it shows none. */
  lemma BearerIsShown(authorization: Text, token: Text)
    ensures Bearer(authorization) == Some(token) <==> Shows(authorization, token)
  {
    SchemeIs(authorization);
    if Bearer(authorization) == Some(token) {
      var rest := authorization[7..];
      var front := TrimmedFront(rest);
      var back := TrimmedBack(TrimFront(rest));
      assert authorization == authorization[..7] + front + token + back;
      assert token[0] == TrimFront(rest)[0];
    }
    if Shows(authorization, token) {
      var scheme, front, back :| IsScheme(scheme) && Spaces(front) && Spaces(back) && Showable(token)
                                 && authorization == scheme + front + token + back;
      assert authorization[..7] == scheme && authorization[7..] == front + (token + back);
      assert (token + back)[0] == token[0];
      TrimFrontOf(front, token + back);
      TrimBackOf(token, back);
    }
  }

  /** Who gets in: from no web page, and with the token, in the header or in the query, where there is one. */
  lemma AllowedIff(origin: Text, authorization: Text, uri: Text, token: Text)
    ensures Check(origin, authorization, uri, token) == Allowed <==>
              && origin == []
              && (token == [] || Shows(authorization, token) || Parameter(uri, TOKEN) == Some(token))
  {
    BearerIsShown(authorization, token);
  }
}
