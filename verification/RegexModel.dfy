/**
  The patterns of user/grep.c and what they mean.

  A pattern is cut into tokens; a text is accepted when it falls into one segment per token and a
  remainder.  Nothing here says how a match is searched for.
 */
module RegexModel {

  type Text = seq<char>

  datatype Token = One(c: char) | Star(c: char) | End

  // How a pattern reads, from the left: x* before a final $ before a plain character.
  function Tokens(re: Text): seq<Token> {
    if re == [] then []
    else if |re| > 1 && re[1] == '*' then [Star(re[0])] + Tokens(re[2..])
    else if re == ['$'] then [End]
    else [One(re[0])] + Tokens(re[1..])
  }

  predicate Fits(c: char, ch: char) {
    c == '.' || c == ch
  }

  ghost predicate AllFit(c: char, t: Text) {
    forall i {:trigger t[i]} :: 0 <= i < |t| ==> Fits(c, t[i])
  }

  // A token accepts a segment of the text, before the remainder rest.
  ghost predicate Accepts(tok: Token, seg: Text, rest: Text) {
    match tok
    case One(c) => |seg| == 1 && Fits(c, seg[0])
    case Star(c) => AllFit(c, seg)
    case End => seg == [] && rest == []
  }

  function Flat(segs: seq<Text>): Text {
    if segs == [] then [] else segs[0] + Flat(segs[1..])
  }

  // The text is the segments one after another and then the remainder.
  ghost predicate Splits(toks: seq<Token>, segs: seq<Text>, rest: Text, text: Text) {
    && |segs| == |toks|
    && text == Flat(segs) + rest
    && forall i {:trigger toks[i]} {:trigger segs[i]} :: 0 <= i < |toks| ==> Accepts(toks[i], segs[i], rest)
  }

  // The tokens match at the beginning of the text.
  ghost predicate MatchesHere(toks: seq<Token>, text: Text) {
    exists segs, rest :: Splits(toks, segs, rest, text)
  }

  ghost predicate MatchesAt(re: Text, text: Text, k: nat) {
    k <= |text| && MatchesHere(Tokens(re), text[k..])
  }

  // The pattern matches somewhere in the text, or at its beginning after ^.
  ghost predicate Matches(re: Text, text: Text) {
    if re != [] && re[0] == '^' then MatchesHere(Tokens(re[1..]), text)
    else exists k: nat :: MatchesAt(re, text, k)
  }

  // ------------------------------------------------------------------
  // Token by token
  // ------------------------------------------------------------------

  lemma NoTokens(text: Text)
    ensures MatchesHere([], text)
  {
    assert Splits([], [], text, text);
  }

  lemma Cons(tok: Token, toks: seq<Token>, seg: Text, segs: seq<Text>, rest: Text, text: Text)
    requires Splits(toks, segs, rest, text) && Accepts(tok, seg, rest)
    ensures Splits([tok] + toks, [seg] + segs, rest, seg + text)
  {
    var l, s := [tok] + toks, [seg] + segs;
    assert s[1..] == segs;
    assert Flat(s) + rest == seg + text;
    forall i | 0 <= i < |l| ensures Accepts(l[i], s[i], rest) {
      if i > 0 {
        assert l[i] == toks[i - 1] && s[i] == segs[i - 1];
      }
    }
  }

  lemma Uncons(tok: Token, toks: seq<Token>, segs: seq<Text>, rest: Text, text: Text)
    requires Splits([tok] + toks, segs, rest, text)
    ensures |segs| == |toks| + 1 && |segs[0]| <= |text| && segs[0] == text[..|segs[0]|]
    ensures Accepts(tok, segs[0], rest) && Splits(toks, segs[1..], rest, text[|segs[0]|..])
  {
    var l := [tok] + toks;
    assert l[0] == tok;
    assert text == segs[0] + (Flat(segs[1..]) + rest);
    forall i | 0 <= i < |toks| ensures Accepts(toks[i], segs[1..][i], rest) {
      assert toks[i] == l[i + 1] && segs[1..][i] == segs[i + 1];
    }
  }

  lemma OneToken(c: char, toks: seq<Token>, text: Text)
    ensures MatchesHere([One(c)] + toks, text) <==> text != [] && Fits(c, text[0]) && MatchesHere(toks, text[1..])
  {
    if MatchesHere([One(c)] + toks, text) {
      var segs, rest :| Splits([One(c)] + toks, segs, rest, text);
      Uncons(One(c), toks, segs, rest, text);
    }
    if text != [] && Fits(c, text[0]) && MatchesHere(toks, text[1..]) {
      var segs, rest :| Splits(toks, segs, rest, text[1..]);
      Cons(One(c), toks, [text[0]], segs, rest, text[1..]);
      assert [text[0]] + text[1..] == text;
    }
  }

  lemma EndToken(text: Text)
    ensures MatchesHere([End], text) <==> text == []
  {
    if MatchesHere([End], text) {
      var segs, rest :| Splits([End], segs, rest, text);
      assert [End] + [] == [End];
      Uncons(End, [], segs, rest, text);
      assert segs[1..] == [];
    }
    if text == [] {
      assert Splits([End], [[]], [], []);
    }
  }

  // A starred character takes some k characters that fit.
  ghost predicate StarAt(c: char, toks: seq<Token>, text: Text, k: nat) {
    k <= |text| && AllFit(c, text[..k]) && MatchesHere(toks, text[k..])
  }

  lemma StarToken(c: char, toks: seq<Token>, text: Text)
    ensures MatchesHere([Star(c)] + toks, text) <==> exists k: nat :: StarAt(c, toks, text, k)
  {
    if MatchesHere([Star(c)] + toks, text) {
      var segs, rest :| Splits([Star(c)] + toks, segs, rest, text);
      Uncons(Star(c), toks, segs, rest, text);
      assert StarAt(c, toks, text, |segs[0]|);
    }
    if k: nat :| StarAt(c, toks, text, k) {
      var segs, rest :| Splits(toks, segs, rest, text[k..]);
      Cons(Star(c), toks, text[..k], segs, rest, text[k..]);
      assert text[..k] + text[k..] == text;
    }
  }
}
