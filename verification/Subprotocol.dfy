/** Reading the access token out of the subprotocols a WebSocket client offers. */
module Subprotocol {

  const PREFIX := "apten-chat.jwt."

  /** The characters that `strings.TrimSpace` removes. */
  predicate IsSpace(c: char) {
    || '\t' <= c <= '\r' || c == ' ' || c == '\U{85}' || c == '\U{A0}' || c == '\U{1680}'
    || '\U{2000}' <= c <= '\U{200A}' || c == '\U{2028}' || c == '\U{2029}' || c == '\U{202F}'
    || c == '\U{205F}' || c == '\U{3000}'
  }

  function TrimLeft(s: string): string {
    if s != [] && IsSpace(s[0]) then TrimLeft(s[1..]) else s
  }

  function TrimRight(s: string): string {
    if s != [] && IsSpace(s[|s| - 1]) then TrimRight(s[..|s| - 1]) else s
  }

  function TrimSpace(s: string): string {
    TrimRight(TrimLeft(s))
  }

  function Split(s: string): (r: seq<string>)
    ensures r != []
  {
    if s == [] then [""]
    else
      var rest := Split(s[1..]);
      if s[0] == ',' then [""] + rest else [[s[0]] + rest[0]] + rest[1..]
  }

  function Trimmed(parts: seq<string>): seq<string> {
    if parts == [] then [] else [TrimSpace(parts[0])] + Trimmed(parts[1..])
  }

  /** The protocols offered in several header lines, in order. */
  function Offered(lines: seq<string>): seq<string> {
    if lines == [] then [] else Trimmed(Split(lines[0])) + Offered(lines[1..])
  }

  predicate HasPrefix(p: string) {
    PREFIX <= p
  }

  function First(offers: seq<string>): string {
    if offers == [] then "" else if HasPrefix(offers[0]) then offers[0] else First(offers[1..])
  }

  lemma NextPart(parts: seq<string>, j: nat, later: seq<string>)
    requires j < |parts|
    ensures First(Trimmed(parts[j..]) + later)
         == if HasPrefix(TrimSpace(parts[j])) then TrimSpace(parts[j]) else First(Trimmed(parts[j + 1..]) + later)
  {
    assert parts[j..][1..] == parts[j + 1..];
    assert Trimmed(parts[j..]) + later == [TrimSpace(parts[j])] + (Trimmed(parts[j + 1..]) + later);
  }

  lemma NextLine(lines: seq<string>, i: nat)
    requires i < |lines|
    ensures var parts := Split(lines[i]);
      && Offered(lines[i..]) == Trimmed(parts[0..]) + Offered(lines[i + 1..])
      && Trimmed(parts[|parts|..]) + Offered(lines[i + 1..]) == Offered(lines[i + 1..])
  {
    var parts := Split(lines[i]);
    assert lines[i..][1..] == lines[i + 1..] && parts[0..] == parts && parts[|parts|..] == [];
  }

  /** `protocolFromRequest`, over the values of the Sec-WebSocket-Protocol header. */
  method ProtocolFromRequest(lines: seq<string>) returns (protocol: string)
    ensures protocol == First(Offered(lines))
  {
    for i := 0 to |lines|
      invariant First(Offered(lines)) == First(Offered(lines[i..]))
    {
      var parts := Split(lines[i]);
      NextLine(lines, i);
      for j := 0 to |parts|
        invariant First(Offered(lines[i..])) == First(Trimmed(parts[j..]) + Offered(lines[i + 1..]))
      {
        var p := TrimSpace(parts[j]);
        NextPart(parts, j, Offered(lines[i + 1..]));
        if HasPrefix(p) {
          return p;
        }
      }
    }
    protocol := "";
  }

  // ---------------------------------------------------------------- what is trimmed

  predicate Blank(pad: string) {
    forall i :: 0 <= i < |pad| ==> IsSpace(pad[i])
  }

  /** Nothing to trim at either end. */
  predicate Tight(s: string) {
    s != [] ==> !IsSpace(s[0]) && !IsSpace(s[|s| - 1])
  }

  lemma {:induction false} TrimLeftTakes(s: string) returns (pad: string)
    ensures Blank(pad) && s == pad + TrimLeft(s) && (TrimLeft(s) != [] ==> !IsSpace(TrimLeft(s)[0]))
  {
    if s != [] && IsSpace(s[0]) {
      var rest := TrimLeftTakes(s[1..]);
      pad := [s[0]] + rest;
    } else {
      pad := [];
    }
  }

  lemma {:induction false} TrimRightTakes(s: string) returns (pad: string)
    ensures Blank(pad) && s == TrimRight(s) + pad && (TrimRight(s) != [] ==> !IsSpace(TrimRight(s)[|TrimRight(s)| - 1]))
  {
    if s != [] && IsSpace(s[|s| - 1]) {
      var n := |s| - 1;
      var rest := TrimRightTakes(s[..n]);
      pad := rest + [s[n]];
      assert s == s[..n] + [s[n]];
    } else {
      pad := [];
    }
  }

  lemma {:induction false} TrimLeftDrops(pad: string, s: string)
    requires Blank(pad) && (s != [] ==> !IsSpace(s[0]))
    ensures TrimLeft(pad + s) == s
  {
    if pad == [] {
      assert pad + s == s;
    } else {
      assert (pad + s)[1..] == pad[1..] + s;
      TrimLeftDrops(pad[1..], s);
    }
  }

  lemma {:induction false} TrimRightDrops(s: string, pad: string)
    requires Blank(pad) && (s != [] ==> !IsSpace(s[|s| - 1]))
    ensures TrimRight(s + pad) == s
  {
    if pad == [] {
      assert s + pad == s;
    } else {
      var n := |pad| - 1;
      assert (s + pad)[..|s + pad| - 1] == s + pad[..n];
      TrimRightDrops(s, pad[..n]);
    }
  }

  ghost predicate Padded(s: string, t: string) {
    exists before: string, after: string :: Blank(before) && Blank(after) && s == before + t + after
  }

  /** Trimming takes all the blanks from both ends and nothing else. */
  lemma TrimExactly(s: string, t: string)
    ensures TrimSpace(s) == t <==> Tight(t) && Padded(s, t)
  {
    var before := TrimLeftTakes(s);
    var after := TrimRightTakes(TrimLeft(s));
    var u := TrimSpace(s);
    assert TrimLeft(s) == u + after && s == before + u + after;
    assert u != [] ==> u[0] == TrimLeft(s)[0];
    assert Padded(s, u);
    if Tight(t) && Padded(s, t) {
      PaddedTrims(s, t);
    }
  }

  lemma PaddedTrims(s: string, t: string)
    requires Tight(t) && Padded(s, t)
    ensures TrimSpace(s) == t
  {
    var before: string, after: string :| Blank(before) && Blank(after) && s == before + t + after;
    if t == [] {
      assert s == (before + after) + [];
      TrimLeftDrops(before + after, []);
    } else {
      assert s == before + (t + after);
      TrimLeftDrops(before, t + after);
      TrimRightDrops(t, after);
    }
  }

  // ---------------------------------------------------------------- one line or many

  /** Header lines combined into one, separated by a comma and `pad`. */
  function Join(lines: seq<string>, pad: string): string {
    if lines == [] then "" else if |lines| == 1 then lines[0] else lines[0] + "," + pad + Join(lines[1..], pad)
  }

  lemma {:induction false} SplitConcat(a: string, b: string)
    ensures Split(a + "," + b) == Split(a) + Split(b)
  {
    if a == [] {
      assert a + "," + b == [','] + b;
      assert (a + "," + b)[1..] == b;
    } else {
      assert (a + "," + b)[1..] == a[1..] + "," + b;
      SplitConcat(a[1..], b);
    }
  }

  lemma {:induction false} TrimmedConcat(a: seq<string>, b: seq<string>)
    ensures Trimmed(a + b) == Trimmed(a) + Trimmed(b)
  {
    if a == [] {
      assert a + b == b;
    } else {
      assert (a + b)[1..] == a[1..] + b;
      TrimmedConcat(a[1..], b);
    }
  }

  /** Blanks in front of a line change only its first element. */
  lemma {:induction false} PadStaysFirst(pad: string, s: string)
    requires Blank(pad)
    ensures Split(pad + s)[0] == pad + Split(s)[0] && Split(pad + s)[1..] == Split(s)[1..]
  {
    if pad == [] {
      assert pad + s == s;
    } else {
      assert (pad + s)[1..] == pad[1..] + s;
      PadStaysFirst(pad[1..], s);
      assert [pad[0]] + (pad[1..] + Split(s)[0]) == pad + Split(s)[0];
    }
  }

  lemma {:induction false} PadIsTrimmed(pad: string, s: string)
    requires Blank(pad)
    ensures TrimSpace(pad + s) == TrimSpace(s)
  {
    if pad == [] {
      assert pad + s == s;
    } else {
      assert (pad + s)[1..] == pad[1..] + s;
      PadIsTrimmed(pad[1..], s);
    }
  }

  /** And not even that, once it is trimmed. */
  lemma PadVanishes(pad: string, s: string)
    requires Blank(pad)
    ensures Trimmed(Split(pad + s)) == Trimmed(Split(s))
  {
    PadStaysFirst(pad, s);
    PadIsTrimmed(pad, Split(s)[0]);
  }

  /** Section 11.3.4 of RFC 6455: the header may appear several times, which is the same as one
      line with all the values, separated by commas (and any blanks). */
  lemma {:induction false} LinesCombine(lines: seq<string>, pad: string)
    requires Blank(pad) && lines != []
    ensures Offered([Join(lines, pad)]) == Offered(lines)
  {
    var joined := Join(lines, pad);
    assert Offered([joined]) == Trimmed(Split(joined)) by {
      assert [joined][1..] == [];
    }
    if |lines| == 1 {
      assert lines == [joined];
    } else {
      var rest := Join(lines[1..], pad);
      LinesCombine(lines[1..], pad);
      assert [rest][1..] == [];
      assert joined == lines[0] + "," + (pad + rest);
      SplitConcat(lines[0], pad + rest);
      TrimmedConcat(Split(lines[0]), Split(pad + rest));
      PadVanishes(pad, rest);
    }
  }

  lemma SameProtocol(lines: seq<string>, pad: string)
    requires Blank(pad)
    ensures First(Offered([Join(lines, pad)])) == First(Offered(lines))
  {
    if lines == [] {
      assert Split("") == [""] && [""][1..] == [];
      assert Trimmed([""]) == [""];
      assert Offered([""]) == [""] by {
        assert [""][1..] == [];
      }
    } else {
      LinesCombine(lines, pad);
    }
  }

  // ---------------------------------------------------------------- what is read

  /** `strings.TrimPrefix`, of what `ProtocolFromRequest` returned. */
  function TokenOf(protocol: string): string
    requires HasPrefix(protocol)
  {
    protocol[|PREFIX|..]
  }

  /** Nothing is returned exactly when nothing with the prefix was offered; otherwise it is the
      first such offer, and the prefix with the token in it is what is echoed to the client. */
  lemma {:induction false} FirstIsFirst(offers: seq<string>)
    ensures First(offers) == "" <==> forall i :: 0 <= i < |offers| ==> !HasPrefix(offers[i])
    ensures First(offers) != "" ==>
              && HasPrefix(First(offers)) && PREFIX + TokenOf(First(offers)) == First(offers)
              && exists i :: 0 <= i < |offers| && offers[i] == First(offers)
                   && forall j :: 0 <= j < i ==> !HasPrefix(offers[j])
  {
    if offers != [] {
      FirstIsFirst(offers[1..]);
      if HasPrefix(offers[0]) {
        assert offers[0] == First(offers);
      } else if First(offers) != "" {
        var i :| 0 <= i < |offers[1..]| && offers[1..][i] == First(offers)
          && forall j :: 0 <= j < i ==> !HasPrefix(offers[1..][j]);
        assert offers[i + 1] == First(offers);
        assert forall j :: 1 <= j < i + 1 ==> offers[j] == offers[1..][j - 1];
      }
      assert forall i :: 1 <= i < |offers| ==> offers[i] == offers[1..][i - 1];
    }
  }

  predicate NoComma(s: string) {
    forall i :: 0 <= i < |s| ==> s[i] != ','
  }

  lemma {:induction false} SplitWhole(s: string)
    requires NoComma(s)
    ensures Split(s) == [s]
  {
    if s != [] {
      SplitWhole(s[1..]);
      assert [s[0]] + s[1..] == s;
    }
  }

  /** What is offered is what the client listed. */
  lemma {:induction false} ListIsOffered(names: seq<string>, pad: string)
    requires Blank(pad) && names != []
    requires forall i :: 0 <= i < |names| ==> NoComma(names[i]) && Tight(names[i])
    ensures Offered([Join(names, pad)]) == names
  {
    LinesCombine(names, pad);
    OfferedWhole(names);
  }

  lemma {:induction false} OfferedWhole(names: seq<string>)
    requires forall i :: 0 <= i < |names| ==> NoComma(names[i]) && Tight(names[i])
    ensures Offered(names) == names
  {
    if names != [] {
      SplitWhole(names[0]);
      assert [names[0]][1..] == [];
      assert Trimmed([names[0]]) == [names[0]];
      OfferedWhole(names[1..]);
    }
  }

  lemma {:induction false} FirstAfter(before: seq<string>, p: string, after: seq<string>)
    requires HasPrefix(p) && forall i :: 0 <= i < |before| ==> !HasPrefix(before[i])
    ensures First(before + [p] + after) == p
  {
    if before != [] {
      assert (before + [p] + after)[1..] == before[1..] + [p] + after;
      FirstAfter(before[1..], p, after);
    }
  }

  lemma OfferIsTight(token: string)
    requires NoComma(token) && (token != [] ==> !IsSpace(token[|token| - 1]))
    ensures NoComma(PREFIX + token) && Tight(PREFIX + token)
  {
    var offer := PREFIX + token;
    assert NoComma(PREFIX) && Tight(PREFIX);
    assert offer[0] == PREFIX[0];
    assert offer[|offer| - 1] == if token == [] then PREFIX[|PREFIX| - 1] else token[|token| - 1];
  }

  lemma NamesAreTight(before: seq<string>, p: string, after: seq<string>)
    requires NoComma(p) && Tight(p)
    requires forall i :: 0 <= i < |before| ==> NoComma(before[i]) && Tight(before[i])
    requires forall i :: 0 <= i < |after| ==> NoComma(after[i]) && Tight(after[i])
    ensures var names := before + [p] + after; forall i :: 0 <= i < |names| ==> NoComma(names[i]) && Tight(names[i])
  {
  }

  /** A client that offers the token among any other protocols, however its header lines are
      written, has exactly that token read. */
  lemma TokenRoundTrip(token: string, before: seq<string>, after: seq<string>, pad: string)
    requires Blank(pad) && NoComma(token) && (token != [] ==> !IsSpace(token[|token| - 1]))
    requires forall i :: 0 <= i < |before| ==> NoComma(before[i]) && Tight(before[i]) && !HasPrefix(before[i])
    requires forall i :: 0 <= i < |after| ==> NoComma(after[i]) && Tight(after[i])
    ensures var protocol := First(Offered([Join(before + [PREFIX + token] + after, pad)]));
      HasPrefix(protocol) && TokenOf(protocol) == token
  {
    var offer := PREFIX + token;
    var names := before + [offer] + after;
    OfferIsTight(token);
    NamesAreTight(before, offer, after);
    ListIsOffered(names, pad);
    FirstAfter(before, offer, after);
  }

  /** The characters of RFC 7230 tokens, and more: ASCII without blanks and commas. */
  predicate Visible(s: string) {
    forall i :: 0 <= i < |s| ==> '!' <= s[i] <= '~' && s[i] != ','
  }

  /** A browser's header, with a comma and a blank between the protocols, is such a list. */
  lemma BrowserRoundTrip(token: string, before: seq<string>, after: seq<string>)
    requires Visible(token)
    requires forall i :: 0 <= i < |before| ==> Visible(before[i]) && !HasPrefix(before[i])
    requires forall i :: 0 <= i < |after| ==> Visible(after[i])
    ensures var protocol := First(Offered([Join(before + [PREFIX + token] + after, " ")]));
      HasPrefix(protocol) && TokenOf(protocol) == token
  {
    assert forall s: string :: Visible(s) ==> NoComma(s) && Tight(s);
    TokenRoundTrip(token, before, after, " ");
  }
}
