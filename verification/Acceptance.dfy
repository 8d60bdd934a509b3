/**
 Whether settings build does not depend on their serial, even where a name breaks the line that
 spells it out.
 */
module Acceptance {
  import opened Text
  import opened Serial
  import opened ZoneText
  import opened ZoneLaws
  import opened Settings

  // ---------------------------------------------------------------------
  // The line the numbers end
  // ---------------------------------------------------------------------

  /** The shape of the printed numbers: in parentheses, five numerals. */
  predicate IsTail(t: string) {
    && IsData(t) && ';' !in t && NextToken(t).0 == "("
    && |NameWords(t)| == 5 && forall i :: 0 <= i < 5 ==> ReadUint32(NameWords(t)[i]).Some?
  }

  lemma SoaTailStarts(soa: SoaData)
    ensures NextToken(SoaTail(soa)).0 == "("
  {
    var numbers := SoaNumbers(soa.serial, soa.refresh, soa.retry, soa.expire, soa.minimum);
    hide SoaNumbers, NextToken, Dec;
    var ws := numbers + [")"];
    assert ["("] + numbers + [")"] == ["("] + ws && (["("] + ws)[1..] == ws;
    assert SoaTail(soa) == Cell("(", ' ', Join(ws, ' '));
    hide Join;
    NextTokenOfCell("(", ' ', Join(ws, ' '));
  }

  lemma NumbersRead(soa: SoaData)
    ensures var ns := SoaNumbers(soa.serial, soa.refresh, soa.retry, soa.expire, soa.minimum);
            |ns| == 5 && forall i :: 0 <= i < 5 ==> ReadUint32(ns[i]).Some?
  {
    NumeralReads(soa.serial);
    NumeralReads(soa.refresh);
    NumeralReads(soa.retry);
    NumeralReads(soa.expire);
    NumeralReads(soa.minimum);
    hide Dec, ReadUint32;
  }

  lemma SoaTailIsTail(soa: SoaData)
    ensures IsTail(SoaTail(soa))
  {
    SoaTailWords(soa);
    SoaTailStarts(soa);
    NumbersRead(soa);
    hide SoaTail, SoaNumbers, Words, NoParens, NextToken, ReadUint32, IsData;
  }

  lemma TailStarts(t: string)
    requires IsTail(t)
    ensures t != "" && !IsBlank(t[0]) && !IsBlank(t[|t| - 1]) && IsData(t) && ';' !in t && NextToken(t).0 == "("
  {
    hide NextToken, ReadUint32, NameWords;
  }

  /** Tokens of a text whose last character is a dot, with more behind it. */
  lemma TokenOver(q: string, t: string)
    requires IsAbsolute(q) && t != "" && !IsBlank(t[0])
    ensures var r := NextToken(q);
            && NextToken(q + (" " + t)) == (r.0, if r.1 == "" then t else r.1 + (" " + t))
            && (r.1 == "" ==> r.0 == q) && (r.1 != "" ==> IsAbsolute(r.1))
  {
    var n, tail := TokenLength(q), " " + t;
    TokenLengthConcat(q, tail);
    CutConcat(q, tail, n);
    SkipBlanksConcat(q[n..], tail);
    assert tail[1..] == t;
    if n < |q| { LastStays(q[n..]); }
    hide TokenLength, SkipBlanks, IsAbsolute;
    SkippedTail(t);
  }

  lemma CutConcat(q: string, tail: string, n: nat)
    requires n <= |q|
    ensures (q + tail)[..n] == q[..n] && (q + tail)[n..] == q[n..] + tail
    ensures n == |q| ==> q[..n] == q && q[n..] == ""
  {
  }

  lemma SkippedTail(t: string)
    requires t != "" && !IsBlank(t[0])
    ensures SkipBlanks(" " + t) == t && SkipBlanks("") == ""
  {
    assert (" " + t)[1..] == t;
  }

  lemma LastStays(s: string)
    requires IsAbsolute(s)
    ensures IsAbsolute(SkipBlanks(s))
  {
    if IsBlank(s[0]) { LastStays(s[1..]); }
  }

  lemma DottedIsNoWord(s: string)
    requires IsAbsolute(s)
    ensures !AllDigits(s) && s != "IN" && !IsType(s)
  {
  }

  /** The fields of such a line, with the numbers at the end of its data; without any data of its
      own the line has no type. */
  lemma FieldsOver(q: string, t: string, defaultTtl: Option<uint32>)
    requires IsAbsolute(q) && IsTail(t)
    ensures var f, g := ReadFields(q, defaultTtl), ReadFields(q + (" " + t), defaultTtl);
            if f.data == "" then !IsType(g.rtype)
            else g == f.(data := f.data + (" " + t)) && IsAbsolute(f.data)
  {
    TailStarts(t);
    hide IsTail, NextToken, IsType, AllDigits, IsAbsolute, TrimBlanksRight, ReadUint32;
    NoTokens();
    TokenOver(q, t);
    var r1 := NextToken(q).1;
    if r1 == "" {
      ParenIsNoWord();
    } else {
      TokenOver(r1, t);
      DottedIsNoWord(r1);
      var x := if AllDigits(NextToken(r1).0) then NextToken(r1).1 else r1;
      assert IsAbsolute(x);
      DottedIsNoWord(x);
      TokenOver(x, t);
      var y := if NextToken(x).0 == "IN" then NextToken(x).1 else x;
      assert IsAbsolute(y);
      DottedIsNoWord(y);
      TokenOver(y, t);
      DataOver(NextToken(y).1, t);
    }
  }

  lemma NoTokens()
    ensures NextToken("") == ("", "") && TrimBlanksRight("") == ""
  {
  }

  lemma ParenIsNoWord()
    ensures !AllDigits("(") && "(" != "IN" && !IsType("(")
  {
  }

  lemma DataOver(d: string, t: string)
    requires d == "" || IsAbsolute(d)
    requires t != "" && !IsBlank(t[|t| - 1])
    ensures TrimBlanksRight(d) == d && TrimBlanksRight(d + (" " + t)) == d + (" " + t)
    ensures TrimBlanksRight(t) == t
  {
    var dt := d + (" " + t);
    assert dt[|dt| - 1] == t[|t| - 1];
  }

  // ---------------------------------------------------------------------
  // What it reads as
  // ---------------------------------------------------------------------

  /** Both are records or neither is, and they set nothing. */
  predicate Alike(a: Entry, b: Entry) {
    (a.Malformed? && b.Malformed?) || (a.Resource? && b.Resource?)
  }

  /** Whether SOA data with such an end reads depends on what precedes it only. */
  lemma SoaOver(owner: string, ttl: uint32, d: string, t: string, origin: string)
    requires IsTail(t) && ';' !in d
    ensures var ws := NameWords(d);
            ReadSoa(owner, ttl, d + (" " + t), origin).Some? <==> |ws| == 2 && IsName(ws[0]) && IsName(ws[1])
  {
    TailStarts(t);
    var data := d + (" " + t);
    UncommentKeeps(data);
    WordsConcat(d, t);
    NoParensConcat(Words(d), Words(t));
    hide Words, NoParens, Uncomment, IsName, IsAbsolute;
    assert NameWords(data) == NameWords(d) + NameWords(t);
    TailNumbers(t);
    var ws := NoParens(Words(Uncomment(data)));
    if |NameWords(d)| == 2 {
      assert forall i :: 0 <= i < 5 ==> ws[2 + i] == NameWords(t)[i];
      hide ReadUint32, NameWords;
    }
  }

  lemma TailNumbers(t: string)
    requires IsTail(t)
    ensures |NameWords(t)| == 5 && forall i :: 0 <= i < 5 ==> ReadUint32(NameWords(t)[i]).Some?
  {
    hide NextToken, ReadUint32, NameWords;
  }

  lemma DataIsOver(rtype: string, d: string, t: string)
    requires IsTail(t) && d != ""
    ensures var own := '\n' !in d && !IsSpace(d[0]) && (IsPrivate(rtype) ==> |d| > 1 && d[0] == '\\' && d[1] == '#');
            IsDataOf(rtype, d + (" " + t)) <==> own
  {
    TailStarts(t);
    hide IsTail, IsPrivate;
    var data := d + (" " + t);
    assert data[0] == d[0] && data[|data| - 1] == t[|t| - 1];
    assert '\n' in data <==> '\n' in d;
    assert data[|d|] == ' ';
    assert |d| > 1 ==> data[1] == d[1];
  }

  lemma RecordOver(f: Fields, t: string, t': string, origin: string)
    requires IsTail(t) && IsTail(t') && f.data != ""
    ensures Interpret(f.(data := f.data + (" " + t)), origin).Some?
       <==> Interpret(f.(data := f.data + (" " + t')), origin).Some?
  {
    DataIsOver(f.rtype, f.data, t);
    DataIsOver(f.rtype, f.data, t');
    hide IsName, IsType, IsDataOf, IsPrivate, ReadSoa, NameWords, IsTail;
    if f.rtype == "SOA" && f.ttl.Some? {
      var owner := Resolve(f.owner, origin);
      if ';' in f.data {
        SameComment(owner, f.ttl.value, f.data, " " + t, origin);
        SameComment(owner, f.ttl.value, f.data, " " + t', origin);
      } else {
        SoaOver(owner, f.ttl.value, f.data, t, origin);
        SoaOver(owner, f.ttl.value, f.data, t', origin);
      }
    }
  }

  lemma UntypedLine(f: Fields, origin: string)
    requires !IsType(f.rtype)
    ensures Interpret(f, origin).None?
  {
    hide IsType, IsName, IsDataOf;
  }

  /** A directive never has an argument with the numbers behind it. */
  lemma DirectiveOver(q: string, t: string, origin: string, defaultTtl: Option<uint32>)
    requires IsAbsolute(q) && q[0] == '$' && IsTail(t)
    ensures ReadLine(q + (" " + t), origin, defaultTtl).Malformed?
  {
    TailStarts(t);
    var line := q + (" " + t);
    assert line[0] == '$' && SkipBlanks(line) == line;
    hide IsTail, NextToken, SkipBlanks;
    TokenOver(q, t);
    var r := NextToken(q);
    if r.1 == "" {
      assert q != "$ORIGIN" && q != "$TTL";
      hide TrimBlanksRight, IsName, ReadUint32;
    } else {
      DataOver(r.1, t);
      var arg := r.1 + (" " + t);
      assert arg[|r.1|] == ' ';
      assert !IsName(arg) && !AllDigits(arg);
    }
  }

  lemma PlainLineOver(line: string, origin: string, defaultTtl: Option<uint32>)
    requires SkipBlanks(line) != "" && line[0] != '$'
    ensures var rr := Interpret(ReadFields(line, defaultTtl), origin);
            ReadLine(line, origin, defaultTtl) == if rr.None? then Malformed else Resource(rr.value)
  {
    hide ReadFields, Interpret, SkipBlanks;
  }

  lemma SkippedOver(q: string, t: string)
    requires IsAbsolute(q)
    ensures SkipBlanks(q + (" " + t)) != "" && (q + (" " + t))[0] == q[0]
  {
    LastStays(q);
    SkipBlanksConcat(q, " " + t);
  }

  /** Lines that differ in the numbers at their end only read alike. */
  lemma LinesAlike(q: string, t: string, t': string, origin: string, defaultTtl: Option<uint32>)
    requires IsAbsolute(q) && IsTail(t) && IsTail(t')
    ensures Alike(ReadLine(q + (" " + t), origin, defaultTtl), ReadLine(q + (" " + t'), origin, defaultTtl))
  {
    hide ReadLine, IsTail, SkipBlanks, ReadFields, Interpret, IsType;
    if q[0] == '$' {
      DirectiveOver(q, t, origin, defaultTtl);
      DirectiveOver(q, t', origin, defaultTtl);
    } else {
      SkippedOver(q, t);
      SkippedOver(q, t');
      PlainLineOver(q + (" " + t), origin, defaultTtl);
      PlainLineOver(q + (" " + t'), origin, defaultTtl);
      FieldsOver(q, t, defaultTtl);
      FieldsOver(q, t', defaultTtl);
      var f := ReadFields(q, defaultTtl);
      if f.data == "" {
        UntypedLine(ReadFields(q + (" " + t), defaultTtl), origin);
        UntypedLine(ReadFields(q + (" " + t'), defaultTtl), origin);
      } else {
        RecordOver(f, t, t', origin);
      }
    }
  }

  // ---------------------------------------------------------------------
  // What is built
  // ---------------------------------------------------------------------

  predicate ScansAlike(a: Scanned, b: Scanned) {
    a.ok == b.ok && |a.records| == |b.records|
  }

  lemma LineAmongLines(front: seq<string>, line: string, line': string, back: seq<string>, origin: string,
                       defaultTtl: Option<uint32>)
    requires forall o, ttl :: Alike(ReadLine(line, o, ttl), ReadLine(line', o, ttl))
    ensures ScansAlike(Scan(front + ([line] + back), origin, defaultTtl),
                       Scan(front + ([line'] + back), origin, defaultTtl))
  {
    hide ReadLine, Scan, ContextAfter;
    ScanAppend(front, [line] + back, origin, defaultTtl);
    ScanAppend(front, [line'] + back, origin, defaultTtl);
    var context := ContextAfter(front, origin, defaultTtl);
    ScanOnce([line] + back, context.0, context.1);
    ScanOnce([line'] + back, context.0, context.1);
    assert ([line] + back)[1..] == back == ([line'] + back)[1..];
    assert Alike(ReadLine(line, context.0, context.1), ReadLine(line', context.0, context.1));
  }

  /** The last line of a text, and the lines before it. */
  lemma {:induction false} LastLine(s: string) returns (front: seq<string>, last: string)
    requires IsAbsolute(s)
    ensures IsAbsolute(last)
    ensures forall t :: '\n' !in t ==> Split(s + t, '\n') == front + [last + t]
    decreases |s|
  {
    hide Split;
    if '\n' in s {
      var before, after := CutAt(s, '\n');
      AfterIsDotted(s, before, after);
      var rest;
      rest, last := LastLine(after);
      front := [before] + rest;
      forall t | '\n' !in t ensures Split(s + t, '\n') == front + [last + t] {
        assert s + t == before + "\n" + (after + t);
        SplitFirst(before, '\n', after + t);
        Prepended(before, rest, [last + t]);
      }
    } else {
      front, last := [], s;
      forall t | '\n' !in t ensures Split(s + t, '\n') == front + [last + t] {
        SplitNone(s + t, '\n');
        assert [] + [s + t] == [s + t];
      }
    }
  }

  lemma AfterIsDotted(s: string, before: string, after: string)
    requires IsAbsolute(s) && s == before + "\n" + after
    ensures IsAbsolute(after)
  {
    var line := before + "\n";
    assert s == line + after && s[|line| - 1] == '\n';
  }

  /** The printed SOA line up to the numbers. */
  function SoaHead(soa: SoaData): string {
    RecordLine(' ', "@", EffectiveTtl(soa), "SOA", SoaNames(soa))
  }

  lemma SoaHeadIs(soa: SoaData)
    ensures IsAbsolute(SoaHead(soa)) && BuildSoaLine(soa) == SoaHead(soa) + (" " + SoaTail(soa))
    ensures '\n' !in " " + SoaTail(soa)
  {
    BuildSoaData(soa);
    RecordLineGrows(EffectiveTtl(soa), SoaNames(soa), " " + SoaTail(soa));
    NamesEnd(soa);
    hide SoaNames, SoaTail, BuildSoaLine;
    RecordLineEnds(EffectiveTtl(soa), SoaNames(soa));
    SoaTailWords(soa);
  }

  lemma NamesEnd(soa: SoaData)
    ensures IsAbsolute(SoaNames(soa))
  {
    hide ReplaceFirstAt;
    var mbox := DnsMbox(soa.mbox);
    assert IsAbsolute(mbox);
  }

  lemma RecordLineEnds(ttl: uint32, data: string)
    requires IsAbsolute(data)
    ensures IsAbsolute(RecordLine(' ', "@", ttl, "SOA", data))
  {
    hide Dec;
    var c3 := Cell("SOA", ' ', data);
    assert IsAbsolute(c3);
    var c2 := Cell("IN", ' ', c3);
    assert IsAbsolute(c2);
    var c1 := Cell(Dec(ttl), ' ', c2);
    assert IsAbsolute(c1);
  }

  lemma SerialOnly(soa: SoaData, serial: uint32)
    ensures var other := soa.(serial := serial);
            SoaHead(other) == SoaHead(soa) && EffectiveTtl(other) == EffectiveTtl(soa)
  {
  }

  lemma BodyLines(soa: SoaData, recs: seq<Record>, front: seq<string>, last: string)
    requires forall t :: '\n' !in t ==> Split(SoaHead(soa) + t, '\n') == front + [last + t]
    ensures Split(BuildBody(soa, recs), '\n')
         == front + ([last + (" " + SoaTail(soa))] + Split(BuildLines(recs, EffectiveTtl(soa)), '\n'))
  {
    SoaHeadIs(soa);
    hide SoaHead, SoaTail, Split, BuildLines, BuildSoaLine, EffectiveTtl;
    SplitConcat(BuildSoaLine(soa), BuildLines(recs, EffectiveTtl(soa)));
    var t, back := " " + SoaTail(soa), Split(BuildLines(recs, EffectiveTtl(soa)), '\n');
    assert Split(SoaHead(soa) + t, '\n') == front + [last + t];
    assert front + [last + t] + back == front + ([last + t] + back);
  }

  lemma BodiesAlike(soa: SoaData, serial: uint32, recs: seq<Record>, origin: string, defaultTtl: Option<uint32>)
    ensures ScansAlike(Scan(Split(BuildBody(soa, recs), '\n'), origin, defaultTtl),
                       Scan(Split(BuildBody(soa.(serial := serial), recs), '\n'), origin, defaultTtl))
  {
    hide *;
    var other := soa.(serial := serial);
    SoaHeadIs(soa);
    SerialOnly(soa, serial);
    SoaTailIsTail(soa);
    SoaTailIsTail(other);
    var front, last := LastLine(SoaHead(soa));
    BodyLines(soa, recs, front, last);
    BodyLines(other, recs, front, last);
    var t, t' := " " + SoaTail(soa), " " + SoaTail(other);
    forall o, ttl ensures Alike(ReadLine(last + t, o, ttl), ReadLine(last + t', o, ttl)) {
      LinesAlike(last, SoaTail(soa), SoaTail(other), o, ttl);
    }
    LineAmongLines(front, last + t, last + t', Split(BuildLines(recs, EffectiveTtl(soa)), '\n'), origin, defaultTtl);
  }

  lemma BuiltFromScan(origin: string, soa: SoaData, recs: seq<Record>)
    ensures var s := ScanText(BuildText(origin, soa, recs), Fqdn(origin));
            BuildZone(origin, soa, recs).Ok? <==> s.ok && s.records != []
  {
    hide BuildText, ScanText, Fqdn;
  }

  /** Whether settings build, with whatever records, does not depend on their serial. */
  lemma BuildIgnoresSerial(origin: string, soa: SoaData, serial: uint32, recs: seq<Record>)
    ensures BuildZone(origin, soa.(serial := serial), recs).Ok? <==> BuildZone(origin, soa, recs).Ok?
  {
    var other := soa.(serial := serial);
    SerialOnly(soa, serial);
    BuiltFromScan(origin, soa, recs);
    BuiltFromScan(origin, other, recs);
    BuildScan(origin, soa, recs);
    BuildScan(origin, other, recs);
    BodiesAlike(soa, serial, recs, NameContext(origin), Some(EffectiveTtl(soa)));
    hide BuildZone, BuildText, ScanText, Scan, Split, NameScan, NameContext, BuildBody, Fqdn, EffectiveTtl, SoaHead;
  }
}
