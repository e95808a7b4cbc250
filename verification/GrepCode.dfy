/**
  user/grep.c: the matcher against the meaning of patterns, and the line-buffering loop against
  the lines of its input.  A C string is the text before its NUL.
 */
module GrepCode {
  import opened RegexModel

  // matchhere.
  method MatchHere(re: Text, text: Text) returns (b: bool)
    ensures b <==> MatchesHere(Tokens(re), text)
    decreases |re|, 0
  {
    if |re| == 0 {
      NoTokens(text);
      return true;
    }
    if |re| > 1 && re[1] == '*' {
      b := MatchStar(re[0], re[2..], text);
      return;
    }
    if re[0] == '$' && |re| == 1 {
      EndToken(text);
      return |text| == 0;
    }
    OneToken(re[0], Tokens(re[1..]), text);
    if |text| > 0 && (re[0] == '.' || re[0] == text[0]) {
      b := MatchHere(re[1..], text[1..]);
      return;
    }
    return false;
  }

  // matchstar: c* and then re, the shortest run of c first.
  method MatchStar(c: char, re: Text, text: Text) returns (b: bool)
    ensures b <==> MatchesHere([Star(c)] + Tokens(re), text)
    decreases |re|, 1
  {
    StarToken(c, Tokens(re), text);
    var i := 0;
    while true
      invariant 0 <= i <= |text| && AllFit(c, text[..i])
      invariant forall k: nat {:trigger StarAt(c, Tokens(re), text, k)} :: k < i ==> !StarAt(c, Tokens(re), text, k)
      decreases |text| - i
    {
      var here := MatchHere(re, text[i..]);
      if here {
        assert StarAt(c, Tokens(re), text, i);
        return true;
      }
      if !(i < |text| && (text[i] == c || c == '.')) {
        NoMoreStar(c, Tokens(re), text, i);
        return false;
      }
      assert !StarAt(c, Tokens(re), text, i);
      assert text[..i + 1] == text[..i] + [text[i]];
      i := i + 1;
    }
  }

  // Past the first character that does not fit, a starred character cannot reach.
  lemma NoMoreStar(c: char, toks: seq<Token>, text: Text, i: nat)
    requires i <= |text| && (i < |text| ==> !Fits(c, text[i]))
    ensures forall k: nat {:trigger StarAt(c, toks, text, k)} :: i < k ==> !StarAt(c, toks, text, k)
  {
    forall k: nat | i < k ensures !StarAt(c, toks, text, k) {
      if k <= |text| {
        assert text[..k][i] == text[i];
      }
    }
  }

  // match.
  method Match(re: Text, text: Text) returns (b: bool)
    ensures b <==> Matches(re, text)
  {
    if |re| > 0 && re[0] == '^' {
      b := MatchHere(re[1..], text);
      return;
    }
    var i := 0;
    while true
      invariant 0 <= i <= |text|
      invariant forall k: nat {:trigger MatchesAt(re, text, k)} :: k < i ==> !MatchesAt(re, text, k)
      decreases |text| - i
    {
      var here := MatchHere(re, text[i..]);
      if here {
        assert MatchesAt(re, text, i);
        return true;
      }
      assert !MatchesAt(re, text, i);
      if i == |text| {
        return false;
      }
      i := i + 1;
    }
  }

  // ------------------------------------------------------------------
  // Lines
  // ------------------------------------------------------------------

  const BUFSIZE: nat := 1024

  // Position of the first newline at or after i, or the length.
  function NewlineFrom(s: Text, i: nat): (k: nat)
    requires i <= |s|
    ensures i <= k <= |s| && (k < |s| ==> s[k] == '\n')
    ensures forall j {:trigger s[j]} :: i <= j < k ==> s[j] != '\n'
    decreases |s| - i
  {
    if i == |s| || s[i] == '\n' then i else NewlineFrom(s, i + 1)
  }

  function Newline(s: Text): nat {
    NewlineFrom(s, 0)
  }

  // The newline-terminated lines, and what follows the last newline.
  function Lines(s: Text): seq<Text>
    decreases |s|
  {
    var k := Newline(s);
    if k == |s| then [] else [s[..k]] + Lines(s[k + 1..])
  }

  function Tail(s: Text): Text
    decreases |s|
  {
    var k := Newline(s);
    if k == |s| then s else Tail(s[k + 1..])
  }

  // Lines written out again.
  function Unlines(l: seq<Text>): Text {
    if l == [] then [] else l[0] + ['\n'] + Unlines(l[1..])
  }

  ghost function Keep(re: Text, l: seq<Text>): seq<Text> {
    if l == [] then []
    else (if Matches(re, l[0]) then [l[0]] else []) + Keep(re, l[1..])
  }

  // The lines before the first one that does not fit into the buffer with its newline.
  function Short(l: seq<Text>): seq<Text> {
    if l == [] || |l[0]| + 1 > BUFSIZE - 1 then [] else [l[0]] + Short(l[1..])
  }

  lemma {:induction false} LinesStep(s: Text)
    requires Newline(s) < |s|
    ensures var k := Newline(s); Lines(s) == [s[..k]] + Lines(s[k + 1..]) && Tail(s) == Tail(s[k + 1..])
  {
  }

  lemma {:induction false} OneMoreLine(line: Text, l: seq<Text>, tail: Text, rest: Text)
    requires Unlines(l) + tail == rest
    ensures Unlines([line] + l) + tail == line + ['\n'] + rest
  {
    assert ([line] + l)[1..] == l;
    Assoc(line + ['\n'], Unlines(l), tail);
  }

  // A text is its lines and its tail.
  lemma {:induction false} LinesAndTail(s: Text)
    ensures Unlines(Lines(s)) + Tail(s) == s
    decreases |s|
  {
    var k := Newline(s);
    if k < |s| {
      LinesAndTail(s[k + 1..]);
      LinesStep(s);
      OneMoreLine(s[..k], Lines(s[k + 1..]), Tail(s), s[k + 1..]);
      assert s[..k] + ['\n'] + s[k + 1..] == s;
    }
  }

  // Short stops before the first line that is too long, so nothing is cut off exactly when every
  // line fits.
  lemma {:induction false} ShortIsAll(l: seq<Text>)
    ensures Short(l) <= l
    ensures forall i {:trigger l[i]} :: 0 <= i < |Short(l)| ==> |l[i]| + 1 <= BUFSIZE - 1
    ensures |Short(l)| < |l| ==> |l[|Short(l)|]| + 1 > BUFSIZE - 1
    ensures Short(l) == l <==> forall i {:trigger l[i]} :: 0 <= i < |l| ==> |l[i]| + 1 <= BUFSIZE - 1
  {
    if l != [] && |l[0]| + 1 <= BUFSIZE - 1 {
      ShortIsAll(l[1..]);
      assert l == [l[0]] + l[1..];
    }
  }

  // What grep writes for an input.
  ghost function Output(re: Text, s: Text): Text {
    Unlines(Keep(re, Short(Lines(s))))
  }

  lemma OutputNone(re: Text, s: Text)
    requires Newline(s) == |s| || Newline(s) >= BUFSIZE - 1
    ensures Output(re, s) == []
  {
  }

  lemma OutputLine(re: Text, s: Text, k: nat)
    requires k == Newline(s) < |s| && k + 1 <= BUFSIZE - 1
    ensures Output(re, s) == (if Matches(re, s[..k]) then s[..k] + ['\n'] else []) + Output(re, s[k + 1..])
  {
    var l := Short(Lines(s[k + 1..]));
    assert Lines(s)[1..] == Lines(s[k + 1..]);
    assert Short(Lines(s)) == [s[..k]] + l;
    assert ([s[..k]] + l)[1..] == l;
    if Matches(re, s[..k]) {
      assert Keep(re, [s[..k]] + l) == [s[..k]] + Keep(re, l);
      assert ([s[..k]] + Keep(re, l))[1..] == Keep(re, l);
    } else {
      assert Keep(re, [s[..k]] + l) == Keep(re, l);
    }
  }

  // Every line of a text, with what follows the last newline if there is anything.
  function AllLines(s: Text): seq<Text> {
    Lines(s) + if Tail(s) == [] then [] else [Tail(s)]
  }

  // Line i ends with a newline, and it and all lines before it fit into the buffer.
  ghost predicate Judged(s: Text, i: nat) {
    i < |Lines(s)| && forall j {:trigger Lines(s)[j]} :: 0 <= j <= i ==> |Lines(s)[j]| + 1 <= BUFSIZE - 1
  }

  lemma {:induction false} KeepSplit(re: Text, a: seq<Text>, b: seq<Text>)
    ensures Keep(re, a + b) == Keep(re, a) + Keep(re, b)
  {
    if a == [] {
      assert a + b == b;
    } else {
      assert (a + b)[0] == a[0] && (a + b)[1..] == a[1..] + b;
      KeepSplit(re, a[1..], b);
      var head := if Matches(re, a[0]) then [a[0]] else [];
      assert head + (Keep(re, a[1..]) + Keep(re, b)) == (head + Keep(re, a[1..])) + Keep(re, b);
    }
  }

  lemma {:induction false} UnlinesSplit(a: seq<Text>, b: seq<Text>)
    ensures Unlines(a + b) == Unlines(a) + Unlines(b)
  {
    if a == [] {
      assert a + b == b;
    } else {
      assert (a + b)[0] == a[0] && (a + b)[1..] == a[1..] + b;
      UnlinesSplit(a[1..], b);
      Assoc(a[0] + ['\n'], Unlines(a[1..]), Unlines(b));
    }
  }

  lemma {:induction false} KeepsNone(re: Text, l: seq<Text>)
    ensures Keep(re, l) == [] <==> forall i {:trigger l[i]} :: 0 <= i < |l| ==> !Matches(re, l[i])
  {
    if l != [] {
      KeepsNone(re, l[1..]);
      assert l == [l[0]] + l[1..];
    }
  }

  lemma {:induction false} JudgedAreShort(s: Text, i: nat)
    ensures Judged(s, i) <==> i < |Short(Lines(s))|
  {
    ShortIsAll(Lines(s));
  }

  // What is missing from the output is what would be written for the lines after those it judges.
  lemma {:induction false} OutputLacks(re: Text, s: Text)
    ensures |Short(Lines(s))| <= |AllLines(s)|
    ensures Unlines(Keep(re, AllLines(s))) == Output(re, s) + Unlines(Keep(re, AllLines(s)[|Short(Lines(s))|..]))
  {
    var all, seen := AllLines(s), Short(Lines(s));
    ShortIsAll(Lines(s));
    var rest := all[|seen|..];
    assert all == seen + rest;
    KeepSplit(re, seen, rest);
    UnlinesSplit(Keep(re, seen), Keep(re, rest));
  }

  // grep writes every matching line exactly when each of them is among those it judges.
  lemma {:induction false} OutputIsAll(re: Text, s: Text)
    ensures Output(re, s) == Unlines(Keep(re, AllLines(s))) <==>
            forall i: nat {:trigger AllLines(s)[i]} :: i < |AllLines(s)| && Matches(re, AllLines(s)[i]) ==> Judged(s, i)
  {
    var all, n := AllLines(s), |Short(Lines(s))|;
    OutputLacks(re, s);
    var rest := all[n..];
    KeepsNone(re, rest);
    forall i: nat | i < |all| ensures i < n <==> Judged(s, i) {
      JudgedAreShort(s, i);
    }
    forall i | 0 <= i < |rest| ensures rest[i] == all[n + i] {
    }
    if i: nat :| i < |all| && Matches(re, all[i]) && !Judged(s, i) {
      assert rest[i - n] == all[i];
    }
  }

  lemma MatchesFirst(c: char, s: Text)
    requires s != [] && s[0] == c && c != '^' && c != '$'
    ensures Matches([c], s)
  {
    assert Tokens([c]) == [One(c)] + [];
    NoTokens(s[1..]);
    OneToken(c, [], s);
    assert s[0..] == s;
    assert MatchesAt([c], s, 0);
  }

  // A last line without a newline is not judged.
  lemma TailIsLost()
    ensures Output("a", "abc") == [] && Unlines(Keep("a", AllLines("abc"))) == "abc\n"
  {
    var s := "abc";
    FirstNewline(s, 3);
    OutputNone("a", s);
    MatchesFirst('a', s);
    assert AllLines(s) == [s] && Keep("a", [s]) == [s] && [s][1..] == [];
  }

  // Nor is a line that does not fit into the buffer, or any line after it.
  lemma LongIsLost(x: Text, rest: Text)
    requires |x| >= BUFSIZE - 1 && x[0] == 'a' && forall i {:trigger x[i]} :: 0 <= i < |x| ==> x[i] != '\n'
    ensures var s := x + ['\n'] + rest; Output("a", s) == [] && |AllLines(s)| > 0 && AllLines(s)[0] == x && Matches("a", x)
  {
    var s := x + ['\n'] + rest;
    assert s[|x|] == '\n' && s[..|x|] == x;
    FirstNewline(s, |x|);
    OutputNone("a", s);
    LinesStep(s);
    MatchesFirst('a', x);
  }

  // ------------------------------------------------------------------
  // grep
  // ------------------------------------------------------------------

  const NUL: char := '\0'

  ghost predicate NulFree(s: Text) {
    forall i {:trigger s[i]} :: 0 <= i < |s| ==> s[i] != NUL
  }

  // strchr(p, '\n') in a buffer that is NUL-terminated at m; m when there is none.
  method FindNewline(buf: array<char>, p: nat, m: nat) returns (q: nat)
    requires p <= m < buf.Length && buf[m] == NUL && NulFree(buf[p..m])
    ensures p <= q <= m && q - p == Newline(buf[p..m])
  {
    q := p;
    while buf[q] != '\n' && buf[q] != NUL
      invariant p <= q <= m
      invariant forall i :: p <= i < q ==> buf[i] != '\n'
      decreases m - q
    {
      assert q < m;
      q := q + 1;
    }
    ghost var s := buf[p..m];
    assert q < m ==> s[q - p] == '\n' by {
      if q < m {
        assert buf[q] == s[q - p];
      }
    }
    FirstNewline(s, q - p);
  }

  lemma FirstNewline(s: Text, k: nat)
    requires k <= |s| && (k < |s| ==> s[k] == '\n') && forall i {:trigger s[i]} :: 0 <= i < k ==> s[i] != '\n'
    ensures Newline(s) == k
  {
  }

  // read: n more bytes after the first m, and a NUL behind them.
  method Fill(buf: array<char>, m: nat, x: Text)
    requires m + |x| < buf.Length
    modifies buf
    ensures buf[..m + |x|] == old(buf[..m]) + x && buf[m + |x|] == NUL
  {
    var i := 0;
    while i < |x|
      invariant 0 <= i <= |x|
      invariant buf[..m + i] == old(buf[..m]) + x[..i]
    {
      buf[m + i] := x[i];
      assert buf[..m + i + 1] == buf[..m + i] + [x[i]];
      assert x[..i + 1] == x[..i] + [x[i]];
      i := i + 1;
    }
    assert x[..i] == x;
    buf[m + |x|] := NUL;
  }

  // memmove(buf, p, n) towards the front.
  method MoveDown(buf: array<char>, p: nat, n: nat)
    requires p + n <= buf.Length
    modifies buf
    ensures buf[..n] == old(buf[p..p + n])
  {
    var i := 0;
    while i < n
      invariant 0 <= i <= n
      invariant forall j :: 0 <= j < i ==> buf[j] == old(buf[p + j])
      invariant forall j :: i <= j < buf.Length ==> buf[j] == old(buf[j])
    {
      buf[i] := buf[p + i];
      i := i + 1;
    }
  }

  // One line of the buffer, between p and the newline at q.
  method JudgeLine(re: Text, buf: array<char>, p: nat, q: nat) returns (out: Text)
    requires p <= q < buf.Length && buf[q] == '\n'
    modifies buf
    ensures out == if Matches(re, old(buf[p..q])) then old(buf[p..q]) + ['\n'] else []
    ensures buf[q + 1..] == old(buf[q + 1..])
  {
    buf[q] := NUL;
    assert buf[p..q] == old(buf[p..q]);
    var b := Match(re, buf[p..q]);
    out := [];
    if b {
      buf[q] := '\n';
      out := buf[p..q + 1];
      assert out == buf[p..q] + [buf[q]];
    }
  }

  // The line up to the newline at q is judged; the rest of the buffer is what remains to be done.
  method JudgeNext(re: Text, buf: array<char>, p: nat, q: nat, m: nat, ghost rest: Text) returns (out: Text)
    requires buf.Length == BUFSIZE && p <= q < m < BUFSIZE && buf[m] == NUL && NulFree(buf[p..m]) && q - p == Newline(buf[p..m])
    modifies buf
    ensures buf[m] == NUL && NulFree(buf[q + 1..m])
    ensures out + Output(re, buf[q + 1..m] + rest) == Output(re, old(buf[p..m]) + rest)
  {
    ghost var b0, todo := buf[..], buf[p..m];
    LineStep(re, todo, rest, q - p);
    CutLine(b0, p, q, m);
    out := JudgeLine(re, buf, p, q);
    SameAfter(b0, buf[..], p, q, m);
    assert buf[q + 1..m] == todo[q - p + 1..];
  }

  // The inner loop: every complete line in the buffer is judged, and p is left at the rest.
  method JudgeLines(re: Text, buf: array<char>, m: nat, ghost rest: Text) returns (out: Text, p: nat)
    requires buf.Length == BUFSIZE && m < BUFSIZE && buf[m] == NUL && NulFree(buf[..m])
    modifies buf
    ensures p <= m && NulFree(buf[p..m]) && Newline(buf[p..m]) == m - p
    ensures out + Output(re, buf[p..m] + rest) == Output(re, old(buf[..m]) + rest)
  {
    out, p := [], 0;
    assert buf[0..m] == buf[..m];
    ghost var all := Output(re, buf[..m] + rest);
    while true
      invariant p <= m && buf[m] == NUL && NulFree(buf[p..m])
      invariant all == out + Output(re, buf[p..m] + rest)
      decreases m - p
    {
      var q := FindNewline(buf, p, m);
      if q == m {
        break;
      }
      var x := JudgeNext(re, buf, p, q, m, rest);
      Assoc(out, x, Output(re, buf[q + 1..m] + rest));
      out, p := out + x, q + 1;
    }
  }

  lemma SameAfter(b0: Text, b1: Text, p: nat, q: nat, m: nat)
    requires p <= q < m < |b0| == |b1| && b1[q + 1..] == b0[q + 1..]
    ensures b1[q + 1..m] == b0[q + 1..m] && b1[m] == b0[m]
  {
    assert b1[q + 1..][m - q - 1] == b0[q + 1..][m - q - 1];
    assert b1[q + 1..m] == b1[q + 1..][..m - q - 1];
  }

  lemma CutLine(s: Text, p: nat, q: nat, m: nat)
    requires p <= q < m <= |s|
    ensures s[p..m][..q - p] == s[p..q] && s[p..m][q - p] == s[q] && s[p..m][q - p + 1..] == s[q + 1..m]
  {
  }

  lemma Assoc(a: Text, b: Text, c: Text)
    ensures (a + b) + c == a + (b + c)
  {
  }

  lemma LineStep(re: Text, s: Text, rest: Text, k: nat)
    requires k == Newline(s) < |s| && |s| < BUFSIZE
    ensures Output(re, s + rest) == (if Matches(re, s[..k]) then s[..k] + ['\n'] else []) + Output(re, s[k + 1..] + rest)
  {
    var t := s + rest;
    FirstNewline(t, k);
    OutputLine(re, t, k);
    assert t[..k] == s[..k] && t[k + 1..] == s[k + 1..] + rest;
  }

  // How many bytes a read brings: any number up to what fits and what is left, but none only at
  // the end of the file or when there is no room.
  function ReadSize(want: nat, room: nat, left: nat): (n: nat)
    ensures n <= room && n <= left && (n == 0 <==> room == 0 || left == 0)
  {
    var most := if room < left then room else left;
    if want < 1 && most > 0 then 1 else if want < most then want else most
  }

  // One turn of grep's outer loop: the bytes x arrive.
  method Turn(re: Text, buf: array<char>, m: nat, x: Text, ghost rest: Text) returns (out: Text, m': nat)
    requires buf.Length == BUFSIZE && m + |x| < BUFSIZE && NulFree(buf[..m]) && NulFree(x)
    modifies buf
    ensures m' <= m + |x| && NulFree(buf[..m']) && Newline(buf[..m']) == m'
    ensures out + Output(re, buf[..m'] + rest) == Output(re, old(buf[..m]) + x + rest)
  {
    ghost var s := buf[..m] + x;
    Fill(buf, m, x);
    assert buf[..m + |x|] == s;
    var p;
    out, p := JudgeLines(re, buf, m + |x|, rest);
    ghost var left := buf[p..m + |x|];
    m' := m + |x| - p;
    MoveDown(buf, p, m');
    assert buf[..m'] == left;
  }

  lemma Arrive(input: Text, pos: nat, n: nat, kept: Text)
    requires pos + n <= |input|
    ensures kept + input[pos..] == kept + input[pos..pos + n] + input[pos + n..]
    ensures NulFree(input) ==> NulFree(input[pos..pos + n])
  {
  }

  // grep: whatever pieces the reads bring, the output is the matching lines, in order, up to the
  // first line that does not fit into the buffer.
  method Grep(re: Text, input: Text, sizes: seq<nat>) returns (out: Text)
    requires NulFree(input)
    ensures out == Output(re, input)
  {
    var buf := new char[BUFSIZE];
    var m: nat, pos: nat, r: nat := 0, 0, 0;
    out := [];
    ghost var all, kept, rest := Output(re, input), [], input;
    assert kept + rest == input;
    while true
      invariant m < BUFSIZE && pos <= |input| && rest == input[pos..] && kept == buf[..m]
      invariant NulFree(kept) && Newline(kept) == m
      invariant all == out + Output(re, kept + rest)
      decreases |input| - pos
    {
      var n := ReadSize(if r < |sizes| then sizes[r] else BUFSIZE, BUFSIZE - m - 1, |input| - pos);
      r := r + 1;
      if n == 0 {
        Stopped(re, kept, rest);
        return;
      }
      var x := input[pos..pos + n];
      ghost var later := input[pos + n..];
      Arrive(input, pos, n, kept);
      var more;
      more, m := Turn(re, buf, m, x, later);
      kept := buf[..m];
      Assoc(out, more, Output(re, kept + later));
      out, pos, rest := out + more, pos + n, later;
    }
  }

  // The loop ends at the end of the input, or with a line that fills the buffer.
  lemma Stopped(re: Text, s: Text, rest: Text)
    requires Newline(s) == |s| && (|s| == BUFSIZE - 1 || rest == [])
    ensures Output(re, s + rest) == []
  {
    var t, k := s + rest, Newline(s + rest);
    assert forall i {:trigger t[i]} :: 0 <= i < |s| ==> t[i] == s[i] && s[i] != '\n';
    assert k >= |s|;
    OutputNone(re, t);
  }
}
