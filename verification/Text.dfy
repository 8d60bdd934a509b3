/**
 Strings: trimming, splitting, decimal numerals and blank-separated tokens,
 with the inverse laws the zone-file printer and parser rely on.
 */
module Text {

  datatype Option<+T> = None | Some(value: T)

  datatype Result<+T> = Ok(value: T) | Err(error: string)

  /** The ASCII characters strings.TrimSpace removes. */
  predicate IsSpace(c: char) {
    c == ' ' || c == '\t' || c == '\n' || c == '\r' || c == '\U{B}' || c == '\U{C}'
  }

  function TrimLeft(s: string): (r: string)
    ensures r == "" || !IsSpace(r[0])
    ensures exists k :: 0 <= k <= |s| && r == s[k..]
  {
    if s == "" then
      assert s == s[0..]; s
    else if IsSpace(s[0]) then
      var r := TrimLeft(s[1..]);
      assert forall k :: 0 <= k <= |s[1..]| ==> s[1..][k..] == s[k + 1..];
      r
    else
      assert s == s[0..]; s
  }

  function TrimRight(s: string): (r: string)
    ensures r == "" || !IsSpace(r[|r| - 1])
    ensures r <= s
  {
    if s != "" && IsSpace(s[|s| - 1]) then TrimRight(s[..|s| - 1]) else s
  }

  /** strings.TrimSpace. */
  function TrimSpace(s: string): (r: string)
    ensures r == "" || (!IsSpace(r[0]) && !IsSpace(r[|r| - 1]))
  {
    TrimRight(TrimLeft(s))
  }

  /** A string with nothing to trim is left alone. */
  lemma TrimSpaceKeeps(s: string)
    requires s == "" || (!IsSpace(s[0]) && !IsSpace(s[|s| - 1]))
    ensures TrimSpace(s) == s
  {
  }

  /** White space around a text goes, and nothing else. */
  lemma TrimSpaceExactly(before: string, s: string, after: string)
    requires s == "" || (!IsSpace(s[0]) && !IsSpace(s[|s| - 1]))
    requires (forall c <- before :: IsSpace(c)) && forall c <- after :: IsSpace(c)
    ensures TrimSpace(before + s + after) == s
  {
    var t := s + after;
    assert before + s + after == before + t;
    TrimLeftExactly(before, t);
    if s == "" {
      assert t == after;
      TrimLeftExactly(after, "");
      assert after + "" == after;
    } else {
      TrimRightExactly(s, after);
      assert t[0] == s[0];
    }
  }

  /** The white space there is. */
  lemma WhiteSpace(c: char)
    ensures TrimSpace([c]) == if c in " \t\n\r\U{B}\U{C}" then "" else [c]
  {
    var blanks := " \t\n\r\U{B}\U{C}";
    assert blanks[0] == ' ' && blanks[1] == '\t' && blanks[2] == '\n' && blanks[3] == '\r';
    assert blanks[4] == '\U{B}' && blanks[5] == '\U{C}';
    if IsSpace(c) {
      TrimLeftExactly([c], "");
      assert [c] + "" == [c];
    } else {
      TrimSpaceKeeps([c]);
    }
  }

  lemma {:induction false} TrimLeftExactly(before: string, s: string)
    requires forall c <- before :: IsSpace(c)
    ensures TrimLeft(before + s) == TrimLeft(s)
  {
    if before == "" {
      assert before + s == s;
    } else {
      assert (before + s)[1..] == before[1..] + s && before[0] in before;
      TrimLeftExactly(before[1..], s);
    }
  }

  lemma {:induction false} TrimRightExactly(s: string, after: string)
    requires forall c <- after :: IsSpace(c)
    ensures TrimRight(s + after) == TrimRight(s)
    decreases |after|
  {
    if after == "" {
      assert s + after == s;
    } else {
      var n := |after| - 1;
      assert (s + after)[..|s + after| - 1] == s + after[..n] && after[n] in after;
      TrimRightExactly(s, after[..n]);
    }
  }

  // ---------------------------------------------------------------------
  // Splitting at a separator
  // ---------------------------------------------------------------------

  /** strings.Split(s, sep) for a one-character separator. */
  function Split(s: string, sep: char): (r: seq<string>)
    ensures |r| > 0
  {
    if s == "" then [""]
    else
      var r := Split(s[1..], sep);
      if s[0] == sep then [""] + r else [[s[0]] + r[0]] + r[1..]
  }

  lemma {:induction false} SplitFirst(a: string, sep: char, rest: string)
    requires sep !in a
    ensures Split(a + [sep] + rest, sep) == [a] + Split(rest, sep)
  {
    var s := a + [sep] + rest;
    if a == "" {
      assert s[1..] == rest;
    } else {
      assert s[1..] == a[1..] + [sep] + rest;
      SplitFirst(a[1..], sep, rest);
      assert [a[0]] + a[1..] == a;
      assert ([a[1..]] + Split(rest, sep))[1..] == Split(rest, sep);
    }
  }

  lemma {:induction false} SplitNone(a: string, sep: char)
    requires sep !in a
    ensures Split(a, sep) == [a]
  {
    if a != "" {
      SplitNone(a[1..], sep);
      assert [a[0]] + a[1..] == a;
    }
  }

  /** strings.Join(parts, sep) for a one-character separator. */
  function Join(parts: seq<string>, sep: char): string {
    if parts == [] then ""
    else if |parts| == 1 then parts[0]
    else parts[0] + [sep] + Join(parts[1..], sep)
  }

  lemma JoinCons(w: string, ws: seq<string>)
    requires ws != []
    ensures Join([w] + ws, ' ') == w + " " + Join(ws, ' ')
  {
    assert ([w] + ws)[1..] == ws;
  }

  // ---------------------------------------------------------------------
  // Decimal numerals
  // ---------------------------------------------------------------------

  predicate IsDigit(c: char) {
    '0' <= c <= '9'
  }

  predicate AllDigits(s: string) {
    s != "" && forall i :: 0 <= i < |s| ==> IsDigit(s[i])
  }

  function Dec(n: nat): (s: string)
    ensures AllDigits(s)
  {
    if n < 10 then [('0' as int + n) as char] else Dec(n / 10) + [('0' as int + n % 10) as char]
  }

  function DecValue(s: string): nat
    requires AllDigits(s)
  {
    var last := s[|s| - 1] as int - '0' as int;
    if |s| == 1 then last else 10 * DecValue(s[..|s| - 1]) + last
  }

  lemma {:induction false} DecRoundTrip(n: nat)
    ensures DecValue(Dec(n)) == n
  {
    if n >= 10 {
      DecRoundTrip(n / 10);
      var s := Dec(n);
      assert s[..|s| - 1] == Dec(n / 10);
    }
  }

  // ---------------------------------------------------------------------
  // Tokens separated by blanks
  // ---------------------------------------------------------------------

  predicate IsBlank(c: char) {
    c == ' ' || c == '\t'
  }

  predicate NoBlanks(s: string) {
    forall i :: 0 <= i < |s| ==> !IsBlank(s[i])
  }

  predicate IsToken(s: string) {
    s != "" && NoBlanks(s)
  }

  /** A non-empty string without any white space at all. */
  predicate IsPlain(s: string) {
    s != "" && forall i :: 0 <= i < |s| ==> !IsSpace(s[i])
  }

  lemma PlainIsToken(s: string)
    requires IsPlain(s)
    ensures IsToken(s) && '\n' !in s
  {
  }

  function TokenLength(s: string): (n: nat)
    ensures n <= |s|
    ensures NoBlanks(s[..n])
    ensures n == |s| || IsBlank(s[n])
  {
    if s == "" || IsBlank(s[0]) then 0 else 1 + TokenLength(s[1..])
  }

  function SkipBlanks(s: string): (r: string)
    ensures r == "" || !IsBlank(r[0])
    ensures |r| <= |s|
    ensures s != "" && IsBlank(s[0]) ==> |r| < |s|
  {
    if s != "" && IsBlank(s[0]) then SkipBlanks(s[1..]) else s
  }

  function TrimBlanksRight(s: string): (r: string)
    ensures r == "" || !IsBlank(r[|r| - 1])
    ensures r <= s
  {
    if s != "" && IsBlank(s[|s| - 1]) then TrimBlanksRight(s[..|s| - 1]) else s
  }

  /** The first token of s, and what follows it and the blanks after it. */
  function NextToken(s: string): (r: (string, string))
    ensures NoBlanks(r.0)
    ensures r.1 == "" || !IsBlank(r.1[0])
    ensures s != "" && !IsBlank(s[0]) ==> |r.1| < |s| && r.0 != "" && r.0[0] == s[0]
  {
    var n := TokenLength(s);
    (s[..n], SkipBlanks(s[n..]))
  }

  /** A token, a separator and the rest of the line. */
  function Cell(token: string, sep: char, rest: string): string {
    token + [sep] + rest
  }

  lemma {:induction false} TokenLengthOfCell(token: string, sep: char, rest: string)
    requires NoBlanks(token) && IsBlank(sep)
    ensures TokenLength(Cell(token, sep, rest)) == |token|
  {
    if token != "" {
      assert Cell(token, sep, rest)[1..] == Cell(token[1..], sep, rest);
      TokenLengthOfCell(token[1..], sep, rest);
    }
  }

  lemma NextTokenOfCell(token: string, sep: char, rest: string)
    requires NoBlanks(token) && IsBlank(sep)
    ensures NextToken(Cell(token, sep, rest)) == (token, SkipBlanks(rest))
  {
    TokenLengthOfCell(token, sep, rest);
    var s := Cell(token, sep, rest);
    assert s[..|token|] == token && s[|token|..] == [sep] + rest;
    assert ([sep] + rest)[1..] == rest;
  }

  lemma {:induction false} TokenLengthAll(token: string)
    requires NoBlanks(token)
    ensures TokenLength(token) == |token|
  {
    if token != "" { TokenLengthAll(token[1..]); }
  }

  /** All tokens of s. */
  function Words(s: string): (r: seq<string>)
    decreases |s|
  {
    var t := SkipBlanks(s);
    if t == "" then []
    else
      var (w, rest) := NextToken(t);
      [w] + Words(rest)
  }

  lemma {:induction false} WordsOfJoin(ws: seq<string>)
    requires forall k :: 0 <= k < |ws| ==> IsToken(ws[k])
    ensures Words(Join(ws, ' ')) == ws
    ensures Join(ws, ' ') == "" || !IsBlank(Join(ws, ' ')[0])
  {
    if |ws| == 1 {
      TokenLengthAll(ws[0]);
      assert ws[0][..|ws[0]|] == ws[0] && ws[0][|ws[0]|..] == "";
      assert NextToken(ws[0]) == (ws[0], "");
    } else if |ws| > 1 {
      WordsOfJoin(ws[1..]);
      var rest := Join(ws[1..], ' ');
      assert Join(ws, ' ') == Cell(ws[0], ' ', rest);
      NextTokenOfCell(ws[0], ' ', rest);
    }
  }

  lemma {:induction false} SkipBlanksConcat(a: string, b: string)
    ensures SkipBlanks(a + b) == if SkipBlanks(a) == "" then SkipBlanks(b) else SkipBlanks(a) + b
  {
    if a == "" {
      assert a + b == b;
    } else if IsBlank(a[0]) {
      assert (a + b)[1..] == a[1..] + b;
      SkipBlanksConcat(a[1..], b);
    }
  }

  lemma {:induction false} TokenLengthConcat(a: string, b: string)
    requires b == "" || IsBlank(b[0])
    ensures TokenLength(a + b) == TokenLength(a)
  {
    if a == "" {
      assert a + b == b;
    } else if !IsBlank(a[0]) {
      assert (a + b)[1..] == a[1..] + b;
      TokenLengthConcat(a[1..], b);
    }
  }

  /** One turn of Words. */
  lemma WordsOnce(s: string)
    ensures var t := SkipBlanks(s);
            var n := TokenLength(t);
            && (t == "" ==> Words(s) == [])
            && (t != "" ==> 0 < n <= |t| <= |s| && t[..n][0] == t[0] && Words(s) == [t[..n]] + Words(t[n..]))
  {
  }

  /** The words of two texts a blank apart are those of the first, then those of the second. */
  lemma {:induction false} WordsConcat(a: string, b: string)
    ensures Words(a + (" " + b)) == Words(a) + Words(b)
    decreases |a|, 1
  {
    var t, rest := SkipBlanks(a), " " + b;
    assert SkipBlanks(rest) == SkipBlanks(b) by { assert rest[1..] == b; }
    SkipBlanksConcat(a, rest);
    if t == "" {
      WordsOnce(a);
      WordsFromSkip(a + rest, b);
    } else {
      WordsTurn(a, b, t, TokenLength(t));
    }
  }

  lemma {:induction false} WordsTurn(a: string, b: string, t: string, n: nat)
    requires t == SkipBlanks(a) != "" && n == TokenLength(t) && |t| <= |a|
    ensures Words(a + (" " + b)) == Words(a) + Words(b)
    decreases |a|, 0
  {
    var rest := " " + b;
    SkipBlanksConcat(a, rest);
    TokenLengthConcat(t, rest);
    WordsOnce(a);
    WordsOnce(a + rest);
    hide *;
    CutConcat(t, rest, n);
    WordsConcat(t[n..], b);
    assert [t[..n]] + (Words(t[n..]) + Words(b)) == ([t[..n]] + Words(t[n..])) + Words(b);
  }

  lemma CutConcat(a: string, b: string, n: nat)
    requires n <= |a|
    ensures (a + b)[..n] == a[..n] && (a + b)[n..] == a[n..] + b
  {
  }

  lemma WordsFromSkip(a: string, b: string)
    requires SkipBlanks(a) == SkipBlanks(b)
    ensures Words(a) == Words(b)
  {
  }

  /** A character other than a blank is in a text exactly when it is in one of its words. */
  lemma {:induction false} WordsHold(s: string, c: char)
    requires !IsBlank(c)
    ensures c in s <==> exists w <- Words(s) :: c in w
    decreases |s|
  {
    var t := SkipBlanks(s);
    SkipBlanksHold(s, c);
    WordsOnce(s);
    if t != "" {
      var n := TokenLength(t);
      WordsHold(t[n..], c);
      assert t == t[..n] + t[n..];
      assert Words(s)[0] == t[..n] && Words(s)[1..] == Words(t[n..]);
    }
  }

  lemma {:induction false} SkipBlanksHold(s: string, c: char)
    requires !IsBlank(c)
    ensures c in s <==> c in SkipBlanks(s)
  {
    if s != "" && IsBlank(s[0]) {
      SkipBlanksHold(s[1..], c);
      assert s == [s[0]] + s[1..];
    }
  }

  /** The last word of a text that does not end in a blank ends as the text does. */
  lemma {:induction false} LastWord(s: string)
    requires s != "" && !IsBlank(s[|s| - 1])
    ensures var ws := Words(s); ws != [] && ws[|ws| - 1] != "" && ws[|ws| - 1][|ws[|ws| - 1]| - 1] == s[|s| - 1]
    decreases |s|
  {
    var t := SkipBlanks(s);
    SkipBlanksIsSuffix(s);
    WordsOnce(s);
    assert t != "" by { SkipBlanksHold(s, s[|s| - 1]); }
    assert Words("") == [];
    hide Words, SkipBlanks, TokenLength, NoBlanks;
    var n := TokenLength(t);
    if n < |t| {
      LastWord(t[n..]);
    } else {
      assert t[n..] == "" && t[..n] == t;
    }
  }

  lemma {:induction false} SkipBlanksIsSuffix(s: string)
    ensures var t := SkipBlanks(s); |t| <= |s| && t == s[|s| - |t|..]
  {
    if s != "" && IsBlank(s[0]) { SkipBlanksIsSuffix(s[1..]); }
  }

  /** Text up to a character that it holds. */
  lemma {:induction false} CutAt(s: string, c: char) returns (before: string, after: string)
    requires c in s
    ensures s == before + [c] + after && c !in before
  {
    if s[0] == c {
      before, after := "", s[1..];
    } else {
      before, after := CutAt(s[1..], c);
      before := [s[0]] + before;
    }
  }
}
