/**
 The print/parse laws of the zone-file dialect: Build parses back to what was asked
 for, Render parses back to the zone, rebuilding is a fixpoint, bumping the serial
 commutes with rebuilding, and normalisation confines every record to one line.
 */
module ZoneLaws {
  import opened Text
  import opened Serial
  import opened ZoneText

  // ---------------------------------------------------------------------
  // One line
  // ---------------------------------------------------------------------

  lemma NameIsPlain(s: string)
    requires IsName(s)
    ensures IsPlain(s) && IsToken(s) && '\n' !in s && ';' !in s && s != "(" && s != ")"
  {
    assert IsNameChar(s[0]);
    forall i | 0 <= i < |s| ensures !IsSpace(s[i]) {
      assert IsNameChar(s[i]);
    }
    PlainIsToken(s);
  }

  lemma DigitsArePlain(s: string)
    requires AllDigits(s)
    ensures IsPlain(s) && IsToken(s) && '\n' !in s && ';' !in s && s != "(" && s != ")"
  {
    forall i | 0 <= i < |s| ensures !IsSpace(s[i]) {
      assert IsDigit(s[i]);
    }
    PlainIsToken(s);
    assert IsDigit(s[0]);
  }

  lemma TypeIsPlain(s: string)
    requires IsType(s)
    ensures IsPlain(s) && IsToken(s) && '\n' !in s && !AllDigits(s)
  {
    assert !IsDigit(s[0]);
    PlainIsToken(s);
  }

  lemma CellHasNoNewline(token: string, sep: char, rest: string)
    requires '\n' !in token && sep != '\n' && '\n' !in rest
    ensures '\n' !in Cell(token, sep, rest)
  {
  }

  lemma RecordLineShape(sep: char, owner: string, ttl: uint32, rtype: string, data: string)
    requires IsBlank(sep) && IsName(owner) && IsType(rtype) && IsData(data)
    ensures var line := RecordLine(sep, owner, ttl, rtype, data);
            '\n' !in line && line != "" && line[0] == owner[0] && !IsBlank(line[0]) && line[0] != '$'
  {
    NameIsPlain(owner);
    TypeIsPlain(rtype);
    DigitsArePlain(Dec(ttl));
    var c3 := Cell(rtype, sep, data);
    CellHasNoNewline(rtype, sep, data);
    var c2 := Cell("IN", sep, c3);
    CellHasNoNewline("IN", sep, c3);
    var c1 := Cell(Dec(ttl), sep, c2);
    CellHasNoNewline(Dec(ttl), sep, c2);
    CellHasNoNewline(owner, sep, c1);
  }

  lemma NumeralReads(n: uint32)
    ensures AllDigits(Dec(n)) && ReadUint32(Dec(n)) == Some(n)
  {
    DecRoundTrip(n);
  }

  /** A printed record line reads back field by field, its data without outer blanks. */
  lemma FieldsRead(sep: char, owner: string, ttl: uint32, rtype: string, data: string, defaultTtl: Option<uint32>)
    requires IsBlank(sep) && IsName(owner) && IsType(rtype)
    ensures ReadFields(RecordLine(sep, owner, ttl, rtype, data), defaultTtl)
         == Fields(owner, Some(ttl), rtype, TrimBlanksRight(SkipBlanks(data)))
  {
    NameIsPlain(owner);
    TypeIsPlain(rtype);
    DigitsArePlain(Dec(ttl));
    NumeralReads(ttl);
    LineTokens(sep, owner, Dec(ttl), "IN", rtype, data);
  }

  lemma DataIsTrimmed(s: string)
    requires IsData(s)
    ensures !IsBlank(s[0]) && SkipBlanks(s) == s && TrimBlanksRight(s) == s
  {
  }

  lemma LineTokens(sep: char, t0: string, t1: string, t2: string, t3: string, data: string)
    requires IsBlank(sep) && IsToken(t0) && IsToken(t1) && IsToken(t2) && IsToken(t3)
    ensures var c3 := Cell(t3, sep, data);
            var c2 := Cell(t2, sep, c3);
            var c1 := Cell(t1, sep, c2);
            && NextToken(Cell(t0, sep, c1)) == (t0, c1)
            && NextToken(c1) == (t1, c2)
            && NextToken(c2) == (t2, c3)
            && NextToken(c3) == (t3, SkipBlanks(data))
  {
    var c3 := Cell(t3, sep, data);
    var c2 := Cell(t2, sep, c3);
    var c1 := Cell(t1, sep, c2);
    assert c1[0] == t1[0] && c2[0] == t2[0] && c3[0] == t3[0];
    assert SkipBlanks(c1) == c1 && SkipBlanks(c2) == c2 && SkipBlanks(c3) == c3;
    NextTokenOfCell(t3, sep, data);
    NextTokenOfCell(t2, sep, c3);
    NextTokenOfCell(t1, sep, c2);
    NextTokenOfCell(t0, sep, c1);
  }

  lemma LineReads(sep: char, owner: string, ttl: uint32, rtype: string, data: string,
                  origin: string, defaultTtl: Option<uint32>)
    requires IsBlank(sep) && IsName(owner) && IsType(rtype) && IsDataOf(rtype, data)
    ensures ReadLine(RecordLine(sep, owner, ttl, rtype, data), origin, defaultTtl)
         == var rr := if rtype == "SOA" then ReadSoa(Resolve(owner, origin), ttl, data, origin)
                      else Some(DataRR(Resolve(owner, origin), ttl, rtype, data));
            if rr.None? then Malformed else Resource(rr.value)
  {
    RecordLineShape(sep, owner, ttl, rtype, data);
    FieldsRead(sep, owner, ttl, rtype, data, defaultTtl);
    DataIsTrimmed(data);
  }

  // ---------------------------------------------------------------------
  // SOA data
  // ---------------------------------------------------------------------

  lemma {:induction false} NoParensKeeps(ws: seq<string>)
    requires forall k :: 0 <= k < |ws| ==> ws[k] != "(" && ws[k] != ")"
    ensures NoParens(ws) == ws
  {
    if ws != [] { NoParensKeeps(ws[1..]); }
  }

  lemma {:induction false} NoParensConcat(a: seq<string>, b: seq<string>)
    ensures NoParens(a + b) == NoParens(a) + NoParens(b)
  {
    if a == [] {
      assert a + b == b;
    } else {
      assert (a + b)[1..] == a[1..] + b;
      NoParensConcat(a[1..], b);
    }
  }

  lemma {:induction false} JoinIsData(ws: seq<string>)
    requires ws != []
    requires forall k :: 0 <= k < |ws| ==> IsPlain(ws[k])
    ensures IsData(Join(ws, ' '))
  {
    PlainIsToken(ws[0]);
    if |ws| > 1 {
      JoinIsData(ws[1..]);
      var rest := Join(ws[1..], ' ');
      var all := ws[0] + [' '] + rest;
      assert all[|all| - 1] == rest[|rest| - 1];
    }
  }

  lemma {:induction false} JoinLacks(ws: seq<string>, c: char)
    requires c != ' ' && forall w <- ws :: c !in w
    ensures c !in Join(ws, ' ')
  {
    if |ws| > 1 {
      assert ws[0] in ws;
      JoinLacks(ws[1..], c);
    } else if |ws| == 1 {
      assert ws[0] in ws;
    }
  }

  /** Text without a comment sign is all there is; with one, what follows does not matter. */
  lemma {:induction false} UncommentKeeps(s: string)
    requires ';' !in s
    ensures Uncomment(s) == s
  {
    if s != "" { UncommentKeeps(s[1..]); }
  }

  lemma {:induction false} UncommentCuts(a: string, b: string)
    requires ';' in a
    ensures Uncomment(a + b) == Uncomment(a)
  {
    if a[0] != ';' {
      assert (a + b)[1..] == a[1..] + b;
      UncommentCuts(a[1..], b);
    }
  }

  lemma NumbersAreTokens(serial: uint32, refresh: uint32, retry: uint32, expire: uint32, minimum: uint32)
    ensures forall n <- SoaNumbers(serial, refresh, retry, expire, minimum) ::
              IsPlain(n) && ';' !in n && n != "(" && n != ")"
  {
    DigitsArePlain(Dec(serial)); DigitsArePlain(Dec(refresh)); DigitsArePlain(Dec(retry));
    DigitsArePlain(Dec(expire)); DigitsArePlain(Dec(minimum));
  }

  function SoaWords(ns: string, mbox: string, numbers: seq<string>, parens: bool): seq<string> {
    if parens then [ns, mbox] + ["("] + numbers + [")"] else [ns, mbox] + numbers
  }

  lemma SoaWordsRead(ns: string, mbox: string, numbers: seq<string>, parens: bool)
    requires IsName(ns) && IsName(mbox)
    requires forall n <- numbers :: IsPlain(n) && ';' !in n && n != "(" && n != ")"
    ensures IsData(Join(SoaWords(ns, mbox, numbers, parens), ' '))
    ensures NoParens(Words(Join(SoaWords(ns, mbox, numbers, parens), ' '))) == [ns, mbox] + numbers
  {
    var ws := SoaWords(ns, mbox, numbers, parens);
    NameIsPlain(ns);
    NameIsPlain(mbox);
    assert IsPlain("(") && IsPlain(")");
    forall k | 0 <= k < |ws| ensures IsPlain(ws[k]) && IsToken(ws[k]) {
      if ws[k] !in numbers {
        assert ws[k] == ns || ws[k] == mbox || ws[k] == "(" || ws[k] == ")";
      }
      PlainIsToken(ws[k]);
    }
    assert ws[0] == ns;
    JoinIsData(ws);
    WordsOfJoin(ws);
    NoParensKeeps([ns, mbox] + numbers);
    if parens {
      NoParensKeeps([ns, mbox]);
      NoParensKeeps(numbers);
      NoParensConcat([ns, mbox], ["("]);
      NoParensConcat([ns, mbox] + ["("], numbers);
      NoParensConcat([ns, mbox] + ["("] + numbers, [")"]);
    }
  }

  lemma SoaWordsUncommented(ns: string, mbox: string, numbers: seq<string>, parens: bool)
    requires IsName(ns) && IsName(mbox) && forall n <- numbers :: ';' !in n
    ensures var data := Join(SoaWords(ns, mbox, numbers, parens), ' '); Uncomment(data) == data
  {
    var ws := SoaWords(ns, mbox, numbers, parens);
    NameIsPlain(ns);
    NameIsPlain(mbox);
    forall w | w in ws ensures ';' !in w {
      assert w in numbers || w == ns || w == mbox || w == "(" || w == ")";
    }
    JoinLacks(ws, ';');
    UncommentKeeps(Join(ws, ' '));
  }

  /** SOA data with absolute names reads back, with or without parentheses around the numbers. */
  lemma SoaReads(owner: string, ttl: uint32, ns: string, mbox: string, serial: uint32, refresh: uint32,
                 retry: uint32, expire: uint32, minimum: uint32, parens: bool, origin: string)
    requires IsFqdnName(ns) && IsFqdnName(mbox)
    ensures var data := Join(SoaWords(ns, mbox, SoaNumbers(serial, refresh, retry, expire, minimum), parens), ' ');
            && IsData(data)
            && ReadSoa(owner, ttl, data, origin)
               == Some(SoaRR(owner, ttl, ns, mbox, serial, refresh, retry, expire, minimum))
  {
    var numbers := SoaNumbers(serial, refresh, retry, expire, minimum);
    NumbersAreTokens(serial, refresh, retry, expire, minimum);
    SoaWordsRead(ns, mbox, numbers, parens);
    SoaWordsUncommented(ns, mbox, numbers, parens);
    NumeralReads(serial); NumeralReads(refresh); NumeralReads(retry); NumeralReads(expire); NumeralReads(minimum);
    ResolveFqdnIsItself(ns, origin);
    ResolveFqdnIsItself(mbox, origin);
  }

  // ---------------------------------------------------------------------
  // Render, then parse
  // ---------------------------------------------------------------------

  /** A printed SOA line with absolute names reads back, in either printed form. */
  lemma SoaLineReads(sep: char, owner: string, ttl: uint32, ns: string, mbox: string, serial: uint32, refresh: uint32,
                     retry: uint32, expire: uint32, minimum: uint32, parens: bool, origin: string,
                     defaultTtl: Option<uint32>)
    requires IsBlank(sep) && IsName(owner) && IsFqdnName(ns) && IsFqdnName(mbox)
    ensures var line := RecordLine(sep, owner, ttl, "SOA",
                          Join(SoaWords(ns, mbox, SoaNumbers(serial, refresh, retry, expire, minimum), parens), ' '));
            && '\n' !in line
            && ReadLine(line, origin, defaultTtl)
               == Resource(SoaRR(Resolve(owner, origin), ttl, ns, mbox, serial, refresh, retry, expire, minimum))
  {
    var data := Join(SoaWords(ns, mbox, SoaNumbers(serial, refresh, retry, expire, minimum), parens), ' ');
    SoaReads(Resolve(owner, origin), ttl, ns, mbox, serial, refresh, retry, expire, minimum, parens, origin);
    RecordLineShape(sep, owner, ttl, "SOA", data);
    LineReads(sep, owner, ttl, "SOA", data, origin, defaultTtl);
  }

  lemma DataLineReads(sep: char, owner: string, ttl: uint32, rtype: string, data: string,
                      origin: string, defaultTtl: Option<uint32>)
    requires IsBlank(sep) && IsName(owner) && IsType(rtype) && rtype != "SOA" && IsDataOf(rtype, data)
    ensures var line := RecordLine(sep, owner, ttl, rtype, data);
            && '\n' !in line
            && ReadLine(line, origin, defaultTtl) == Resource(DataRR(Resolve(owner, origin), ttl, rtype, data))
  {
    RecordLineShape(sep, owner, ttl, rtype, data);
    LineReads(sep, owner, ttl, rtype, data, origin, defaultTtl);
  }

  lemma RRLineReads(rr: RR, origin: string, defaultTtl: Option<uint32>)
    requires WellFormed(rr)
    ensures '\n' !in RRLine(rr)
    ensures ReadLine(RRLine(rr), origin, defaultTtl) == Resource(rr)
  {
    ResolveFqdnIsItself(rr.owner, origin);
    match rr
    case SoaRR(owner, ttl, ns, mbox, serial, refresh, retry, expire, minimum) =>
      SoaLineReads('\t', owner, ttl, ns, mbox, serial, refresh, retry, expire, minimum, false, origin, defaultTtl);
    case DataRR(owner, ttl, rtype, data) =>
      DataLineReads('\t', owner, ttl, rtype, data, origin, defaultTtl);
  }

  /** A text of one resource line scans to that resource. */
  lemma OneLineScan(line: string, rr: RR, origin: string, defaultTtl: Option<uint32>)
    requires '\n' !in line && ReadLine(line, origin, defaultTtl) == Resource(rr)
    ensures Scan(Split(line + "\n", '\n'), origin, defaultTtl) == Scanned([rr], true)
  {
    assert line + "\n" == line + "\n" + "";
    ResourceLineScan(line, rr, "", origin, defaultTtl);
    ScanNothing(origin, defaultTtl);
  }

  /** One turn of the parser. */
  lemma ScanOnce(lines: seq<string>, origin: string, defaultTtl: Option<uint32>)
    requires lines != []
    ensures var e := ReadLine(lines[0], origin, defaultTtl);
            var more := Scan(lines[1..], if e.Origin? then e.name else origin,
                             if e.DefaultTtl? then Some(e.ttl) else defaultTtl);
            Scan(lines, origin, defaultTtl)
            == if e.Malformed? then Scanned([], false)
               else Scanned((if e.Resource? then [e.rr] else []) + more.records, more.ok)
  {
  }

  lemma ScanNothing(origin: string, defaultTtl: Option<uint32>)
    ensures Scan([], origin, defaultTtl) == Scanned([], true)
    ensures Scan(Split("", '\n'), origin, defaultTtl) == Scanned([], true)
  {
    assert Scan([""], origin, defaultTtl) == Scan([""][1..], origin, defaultTtl);
  }

  /** Scanning a text whose first line is a resource line. */
  lemma ResourceLineScan(line: string, rr: RR, rest: string, origin: string, defaultTtl: Option<uint32>)
    requires '\n' !in line && ReadLine(line, origin, defaultTtl) == Resource(rr)
    ensures var more := Scan(Split(rest, '\n'), origin, defaultTtl);
            Scan(Split(line + "\n" + rest, '\n'), origin, defaultTtl) == Scanned([rr] + more.records, more.ok)
  {
    SplitFirst(line, '\n', rest);
    ScanOnce(Split(line + "\n" + rest, '\n'), origin, defaultTtl);
    assert ([line] + Split(rest, '\n'))[1..] == Split(rest, '\n');
  }

  lemma RRLinesCons(rrs: seq<RR>)
    requires rrs != []
    ensures RRLines(rrs) == RRLine(rrs[0]) + "\n" + RRLines(rrs[1..])
  {
  }

  lemma {:induction false} RRLinesScan(rrs: seq<RR>, origin: string, defaultTtl: Option<uint32>)
    requires forall i :: 0 <= i < |rrs| ==> WellFormed(rrs[i])
    ensures Scan(Split(RRLines(rrs), '\n'), origin, defaultTtl) == Scanned(rrs, true)
  {
    if rrs == [] {
      ScanNothing(origin, defaultTtl);
    } else {
      hide *;
      RRLinesCons(rrs);
      RRLineReads(rrs[0], origin, defaultTtl);
      ResourceLineScan(RRLine(rrs[0]), rrs[0], RRLines(rrs[1..]), origin, defaultTtl);
      RRLinesScan(rrs[1..], origin, defaultTtl);
    }
  }

  lemma OriginLineReads(o: string, origin: string, defaultTtl: Option<uint32>)
    requires IsFqdnName(SkipBlanks(o))
    ensures '\n' !in "$ORIGIN " + o
    ensures ReadLine("$ORIGIN " + o, origin, defaultTtl) == Origin(SkipBlanks(o))
  {
    var apex, line := SkipBlanks(o), "$ORIGIN " + o;
    NameIsPlain(apex);
    FqdnIsTrimmed(apex);
    ResolveFqdnIsItself(apex, origin);
    OriginLineTokens(o);
    hide NextToken, SkipBlanks, TrimBlanksRight, IsName, ReadLine, Resolve;
    SkipBlanksHold(o, '\n');
    OriginDirective(line, apex, origin, defaultTtl);
  }

  lemma OriginLineTokens(o: string)
    ensures var line := "$ORIGIN " + o;
            && line != "" && line[0] == '$'
            && NextToken(line) == ("$ORIGIN", SkipBlanks(o)) && ('\n' in line <==> '\n' in o)
  {
    var line := "$ORIGIN " + o;
    assert line == Cell("$ORIGIN", ' ', o);
    NextTokenOfCell("$ORIGIN", ' ', o);
    hide NextToken;
  }

  lemma FqdnIsTrimmed(s: string)
    requires IsFqdnName(s)
    ensures TrimBlanksRight(s) == s && s != "@"
  {
  }

  lemma OriginDirective(line: string, arg: string, origin: string, defaultTtl: Option<uint32>)
    requires line != "" && line[0] == '$' && NextToken(line).0 == "$ORIGIN" && TrimBlanksRight(NextToken(line).1) == arg
    ensures ReadLine(line, origin, defaultTtl)
         == if IsName(arg) then Origin(Resolve(arg, origin)) else Malformed
  {
    hide NextToken, TrimBlanksRight, IsName;
  }

  /** Scanning a text whose first line is an origin line. */
  lemma OriginLineScan(o: string, rest: string, origin: string, defaultTtl: Option<uint32>)
    requires IsFqdnName(SkipBlanks(o))
    ensures Scan(Split("$ORIGIN " + o + "\n" + rest, '\n'), origin, defaultTtl)
         == Scan(Split(rest, '\n'), SkipBlanks(o), defaultTtl)
  {
    OriginLineReads(o, origin, defaultTtl);
    SplitFirst("$ORIGIN " + o, '\n', rest);
    assert Split("$ORIGIN " + o + "\n" + rest, '\n')[1..] == Split(rest, '\n');
  }

  /** What Render prints reads back whatever name the text is read under. */
  lemma RenderScans(z: ZoneData, origin: string)
    requires WellFormedZone(z)
    ensures ScanText(RenderText(z), origin) == Scanned(z.records, true)
  {
    OriginLineScan(z.origin, RRLines(z.records), origin, None);
    RRLinesScan(z.records, SkipBlanks(z.origin), None);
  }

  /** Parsing what Render prints gives the zone back. */
  lemma RenderParses(z: ZoneData, origin: string)
    requires WellFormedZone(z) && z.origin == Fqdn(origin)
    ensures ParseText(RenderText(z), origin) == Ok(z)
  {
    RenderScans(z, z.origin);
  }

  /** Rendering is injective on well-formed zones. */
  lemma RenderInjective(a: ZoneData, b: ZoneData)
    requires WellFormedZone(a) && WellFormedZone(b) && a.origin == b.origin
    requires RenderText(a) == RenderText(b)
    ensures a == b
  {
    RenderScans(a, a.origin);
    RenderScans(b, a.origin);
  }

  // ---------------------------------------------------------------------
  // Whatever parses is well formed
  // ---------------------------------------------------------------------

  lemma InterpretWellFormed(f: Fields, origin: string)
    requires IsFqdnName(origin)
    ensures var rr := Interpret(f, origin); rr.Some? ==> WellFormed(rr.value)
  {
    if IsName(f.owner) {
      ResolveIsFqdn(f.owner, origin);
      hide IsFqdnName, IsType, IsDataOf, IsName, ReadSoa;
      if f.ttl.Some? { ReadSoaWellFormed(Resolve(f.owner, origin), f.ttl.value, f.data, origin); }
    }
  }

  lemma ReadSoaWellFormed(owner: string, ttl: uint32, data: string, origin: string)
    requires IsFqdnName(origin) && IsFqdnName(owner)
    ensures var rr := ReadSoa(owner, ttl, data, origin); rr.Some? ==> rr.value.SoaRR? && WellFormed(rr.value)
  {
    var ws := NoParens(Words(Uncomment(data)));
    if |ws| == 7 && IsName(ws[0]) && IsName(ws[1]) {
      ResolveIsFqdn(ws[0], origin);
      ResolveIsFqdn(ws[1], origin);
    }
    hide IsFqdnName, IsName, Words, Uncomment, NoParens;
  }

  lemma ReadLineWellFormed(line: string, origin: string, defaultTtl: Option<uint32>)
    requires IsFqdnName(origin)
    ensures var e := ReadLine(line, origin, defaultTtl);
            && (e.Origin? ==> IsFqdnName(e.name))
            && (e.Resource? ==> WellFormed(e.rr))
  {
    var arg := TrimBlanksRight(NextToken(line).1);
    if IsName(arg) {
      ResolveIsFqdn(arg, origin);
    }
    InterpretWellFormed(ReadFields(line, defaultTtl), origin);
  }

  lemma {:induction false} ScanWellFormed(lines: seq<string>, origin: string, defaultTtl: Option<uint32>)
    requires IsFqdnName(origin)
    ensures forall rr <- Scan(lines, origin, defaultTtl).records :: WellFormed(rr)
  {
    if lines != [] {
      ReadLineWellFormed(lines[0], origin, defaultTtl);
      match ReadLine(lines[0], origin, defaultTtl)
      case Blank => ScanWellFormed(lines[1..], origin, defaultTtl);
      case Origin(o) => ScanWellFormed(lines[1..], o, defaultTtl);
      case DefaultTtl(t) => ScanWellFormed(lines[1..], origin, Some(t));
      case Resource(rr) => ScanWellFormed(lines[1..], origin, defaultTtl);
      case Malformed =>
    }
  }

  lemma ScanTextWellFormed(content: string, o: string)
    requires IsFqdnName(o)
    ensures forall rr <- ScanText(content, o).records :: WellFormed(rr)
  {
    ScanWellFormed(Split(content, '\n'), o, None);
  }

  /** Every text that parses under a zone's name, whatever it is, renders to a text that parses
      to the same zone. */
  lemma ParseRenderParse(content: string, origin: string)
    requires ParseText(content, origin).Ok? && IsName(Fqdn(origin))
    ensures var z := ParseText(content, origin).value;
            WellFormedZone(z) && z.origin == Fqdn(origin) && ParseText(RenderText(z), origin) == Ok(z)
  {
    ScanTextWellFormed(content, Fqdn(origin));
    NameIsPlain(Fqdn(origin));
    RenderParses(ParseText(content, origin).value, origin);
  }

  // ---------------------------------------------------------------------
  // Build, then parse
  // ---------------------------------------------------------------------

  /** What Build needs of a stored row to print it as one line of the dialect. */
  predicate Printable(r: Record) {
    (r.name == "" || IsName(r.name)) && IsMnemonic(r.rtype) && r.rtype != "SOA" && IsData(r.data)
  }

  /** The words of a text other than parentheses, which the SOA's data may hold anywhere. */
  function NameWords(s: string): seq<string> {
    NoParens(Words(s))
  }

  /** A text with exactly one such word, a name. */
  predicate HoldsName(s: string) {
    |NameWords(s)| == 1 && IsName(NameWords(s)[0])
  }

  /** The name in a text that holds one. */
  function NameIn(s: string): string {
    if HoldsName(s) then NameWords(s)[0] else s
  }

  /** Zone name and SOA names that print to one readable SOA line. */
  predicate GoodSettings(origin: string, soa: SoaData) {
    IsName(Apex(origin)) && HoldsName(Fqdn(soa.primaryNS)) && HoldsName(DnsMbox(soa.mbox))
  }

  /** The record Build is asked for: owner defaulted and resolved, zero TTL replaced. */
  function Requested(r: Record, origin: string, zoneTtl: uint32): RR {
    DataRR(Resolve(if r.name == "" then "@" else r.name, origin),
           if r.ttl == 0 then zoneTtl else r.ttl, r.rtype, r.data)
  }

  function RequestedAll(recs: seq<Record>, origin: string, zoneTtl: uint32): seq<RR> {
    seq(|recs|, i requires 0 <= i < |recs| => Requested(recs[i], origin, zoneTtl))
  }

  lemma RequestedAllCons(recs: seq<Record>, origin: string, zoneTtl: uint32)
    requires recs != []
    ensures RequestedAll(recs, origin, zoneTtl)
         == [Requested(recs[0], origin, zoneTtl)] + RequestedAll(recs[1..], origin, zoneTtl)
  {
  }

  function RequestedSoa(origin: string, soa: SoaData): RR {
    SoaRR(origin, EffectiveTtl(soa), NameIn(Fqdn(soa.primaryNS)), NameIn(DnsMbox(soa.mbox)), soa.serial,
          soa.refresh, soa.retry, soa.expire, soa.minimum)
  }

  function RequestedZone(origin: string, soa: SoaData, recs: seq<Record>): ZoneData {
    var o := Apex(origin);
    ZoneData(Fqdn(origin), [RequestedSoa(o, soa)] + RequestedAll(recs, o, EffectiveTtl(soa)))
  }

  lemma BuildLineReads(r: Record, zoneTtl: uint32, origin: string, defaultTtl: Option<uint32>)
    requires Printable(r)
    ensures '\n' !in BuildLine(r, zoneTtl)
    ensures ReadLine(BuildLine(r, zoneTtl), origin, defaultTtl) == Resource(Requested(r, origin, zoneTtl))
  {
    var owner := if r.name == "" then "@" else r.name;
    var ttl := if r.ttl == 0 then zoneTtl else r.ttl;
    DataLineReads(' ', owner, ttl, r.rtype, r.data, origin, defaultTtl);
  }

  lemma {:induction false} BuildLinesScan(recs: seq<Record>, zoneTtl: uint32, origin: string,
                                          defaultTtl: Option<uint32>)
    requires forall i :: 0 <= i < |recs| ==> Printable(recs[i])
    ensures Scan(Split(BuildLines(recs, zoneTtl), '\n'), origin, defaultTtl)
         == Scanned(RequestedAll(recs, origin, zoneTtl), true)
  {
    if recs == [] {
      ScanNothing(origin, defaultTtl);
    } else {
      BuildLineReads(recs[0], zoneTtl, origin, defaultTtl);
      ResourceLineScan(BuildLine(recs[0], zoneTtl), Requested(recs[0], origin, zoneTtl),
                       BuildLines(recs[1..], zoneTtl), origin, defaultTtl);
      BuildLinesScan(recs[1..], zoneTtl, origin, defaultTtl);
      RequestedAllCons(recs, origin, zoneTtl);
    }
  }

  lemma TtlLineScan(ttl: uint32, rest: string, origin: string, defaultTtl: Option<uint32>)
    ensures Scan(Split("$TTL " + Dec(ttl) + "\n" + rest, '\n'), origin, defaultTtl)
         == Scan(Split(rest, '\n'), origin, Some(ttl))
  {
    var line := "$TTL " + Dec(ttl);
    DigitsArePlain(Dec(ttl));
    DecRoundTrip(ttl);
    DataIsTrimmed(Dec(ttl));
    assert line == Cell("$TTL", ' ', Dec(ttl));
    NextTokenOfCell("$TTL", ' ', Dec(ttl));
    assert ReadLine(line, origin, defaultTtl) == DefaultTtl(ttl);
    SplitFirst(line, '\n', rest);
    assert Split(line + "\n" + rest, '\n')[1..] == Split(rest, '\n');
  }

  lemma NameHoldsItself(s: string)
    requires IsName(s)
    ensures HoldsName(s) && NameIn(s) == s
  {
    NameIsPlain(s);
    WordsOfJoin([s]);
    NoParensKeeps([s]);
  }

  lemma {:induction false} NoParensMembers(ws: seq<string>, w: string)
    ensures w in NoParens(ws) <==> w in ws && w != "(" && w != ")"
  {
    if ws != [] { NoParensMembers(ws[1..], w); }
  }

  /** Characters that are neither blanks nor parentheses sit in the words that are names. */
  lemma NameWordsHold(s: string, c: char)
    requires !IsBlank(c) && c != '(' && c != ')'
    ensures c in s <==> exists w <- NameWords(s) :: c in w
  {
    WordsHold(s, c);
    if c in s {
      var w :| w in Words(s) && c in w;
      NoParensMembers(Words(s), w);
    } else {
      forall w | w in NameWords(s) ensures c !in w {
        NoParensMembers(Words(s), w);
      }
    }
  }

  /** A text that holds a name is on one line, and its characters are the name's. */
  lemma NameInHolds(s: string, c: char)
    requires HoldsName(s) && !IsBlank(c) && c != '(' && c != ')'
    ensures c in s <==> c in NameIn(s)
    ensures '\n' !in s && ';' !in s
  {
    NameWordsHold(s, c);
    NameWordsHold(s, '\n');
    NameWordsHold(s, ';');
    NameIsPlain(NameIn(s));
  }

  /** An absolute text ends in a word of its own, which is absolute if it is the only name. */
  lemma AbsoluteWords(s: string)
    requires IsAbsolute(s)
    ensures NameWords(s) != []
    ensures |NameWords(s)| == 1 ==> IsAbsolute(NameWords(s)[0])
  {
    LastWord(s);
    var ws := Words(s);
    NoParensMembers(ws, ws[|ws| - 1]);
  }

  lemma NameInIsFqdn(s: string)
    requires IsAbsolute(s) && HoldsName(s)
    ensures IsFqdnName(NameIn(s)) && '\n' !in s
  {
    AbsoluteWords(s);
    NameInHolds(s, '.');
  }

  /** A printed SOA line, whatever its data is. */
  lemma AnySoaLineReads(ttl: uint32, data: string, origin: string, defaultTtl: Option<uint32>)
    ensures var d := TrimBlanksRight(SkipBlanks(data));
            var rr := if IsData(d) then ReadSoa(origin, ttl, d, origin) else None;
            (ReadLine(RecordLine(' ', "@", ttl, "SOA", data), origin, defaultTtl)
             == if rr.None? then Malformed else Resource(rr.value))
  {
    var line := RecordLine(' ', "@", ttl, "SOA", data);
    AtSoaLine(ttl, data);
    hide RecordLine, ReadLine, ReadSoa, ReadFields, TrimBlanksRight, SkipBlanks, IsName, IsType, IsData;
    FieldsRead(' ', "@", ttl, "SOA", data, defaultTtl);
    RecordLineReads(line, origin, defaultTtl);
  }

  lemma AtSoaLine(ttl: uint32, data: string)
    ensures IsName("@") && IsType("SOA")
    ensures var line := RecordLine(' ', "@", ttl, "SOA", data); line != "" && line[0] == '@'
  {
    hide Dec;
  }

  lemma RecordLineReads(line: string, origin: string, defaultTtl: Option<uint32>)
    requires line != "" && !IsBlank(line[0]) && line[0] != '$'
    ensures var rr := Interpret(ReadFields(line, defaultTtl), origin);
            ReadLine(line, origin, defaultTtl) == if rr.None? then Malformed else Resource(rr.value)
  {
    hide ReadFields, Interpret;
  }

  /** What Build prints after the SOA's names: the numbers in parentheses. */
  function SoaTail(soa: SoaData): string {
    Join(["("] + SoaNumbers(soa.serial, soa.refresh, soa.retry, soa.expire, soa.minimum) + [")"], ' ')
  }

  lemma SoaTailWords(soa: SoaData)
    ensures ';' !in SoaTail(soa)
    ensures NoParens(Words(SoaTail(soa))) == SoaNumbers(soa.serial, soa.refresh, soa.retry, soa.expire, soa.minimum)
    ensures IsData(SoaTail(soa))
  {
    var numbers := SoaNumbers(soa.serial, soa.refresh, soa.retry, soa.expire, soa.minimum);
    var ws := ["("] + numbers + [")"];
    NumbersAreTokens(soa.serial, soa.refresh, soa.retry, soa.expire, soa.minimum);
    hide SoaNumbers, Words;
    forall k | 0 <= k < |ws| ensures IsPlain(ws[k]) && IsToken(ws[k]) {
      assert ws[k] in numbers || ws[k] == "(" || ws[k] == ")";
      PlainIsToken(ws[k]);
    }
    WordsOfJoin(ws);
    JoinIsData(ws);
    forall w | w in ws ensures ';' !in w {
      assert w in numbers || w == "(" || w == ")";
    }
    JoinLacks(ws, ';');
    forall k | 0 <= k < |numbers| ensures numbers[k] != "(" && numbers[k] != ")" {
      assert numbers[k] in numbers;
    }
    NoParensKeeps(numbers);
    NoParensConcat(["("], numbers);
    NoParensConcat(["("] + numbers, [")"]);
  }

  function SoaNames(soa: SoaData): string {
    Fqdn(soa.primaryNS) + (" " + DnsMbox(soa.mbox))
  }

  lemma BuildSoaData(soa: SoaData)
    ensures BuildSoaLine(soa) == RecordLine(' ', "@", EffectiveTtl(soa), "SOA", SoaNames(soa) + (" " + SoaTail(soa)))
  {
    var ns, mbox := Fqdn(soa.primaryNS), DnsMbox(soa.mbox);
    var numbers := SoaNumbers(soa.serial, soa.refresh, soa.retry, soa.expire, soa.minimum);
    hide SoaNumbers, RecordLine, Fqdn, DnsMbox;
    NamesJoined(ns, mbox, ["("] + numbers + [")"]);
    assert [ns, mbox] + ["("] + numbers + [")"] == [ns, mbox] + (["("] + numbers + [")"]);
  }

  lemma NamesJoined(ns: string, mbox: string, ws: seq<string>)
    requires ws != []
    ensures Join([ns, mbox] + ws, ' ') == ns + (" " + mbox) + (" " + Join(ws, ' '))
  {
    assert [ns, mbox] + ws == [ns] + ([mbox] + ws);
    hide Join;
    JoinCons(mbox, ws);
    JoinCons(ns, [mbox] + ws);
  }

  lemma SoaDataWords(soa: SoaData)
    ensures NameWords(SoaNames(soa) + (" " + SoaTail(soa)))
         == NameWords(Fqdn(soa.primaryNS)) + NameWords(DnsMbox(soa.mbox))
            + SoaNumbers(soa.serial, soa.refresh, soa.retry, soa.expire, soa.minimum)
  {
    var ns, mbox, tail := Fqdn(soa.primaryNS), DnsMbox(soa.mbox), SoaTail(soa);
    SoaTailWords(soa);
    hide Words, NoParens, Fqdn, DnsMbox, SoaTail, SoaNumbers;
    WordsConcat(SoaNames(soa), tail);
    WordsConcat(ns, mbox);
    NoParensConcat(Words(SoaNames(soa)), Words(tail));
    NoParensConcat(Words(ns), Words(mbox));
  }

  /** Reading SOA data made of some words, some more, and the five numbers. */
  lemma SoaWordsDecide(owner: string, ttl: uint32, data: string, origin: string, a: seq<string>, b: seq<string>,
                       soa: SoaData)
    requires Uncomment(data) == data
    requires NameWords(data) == a + b + SoaNumbers(soa.serial, soa.refresh, soa.retry, soa.expire, soa.minimum)
    requires a != [] && b != []
    ensures ReadSoa(owner, ttl, data, origin)
         == if |a| == 1 && IsName(a[0]) && |b| == 1 && IsName(b[0])
            then Some(SoaRR(owner, ttl, Resolve(a[0], origin), Resolve(b[0], origin), soa.serial,
                            soa.refresh, soa.retry, soa.expire, soa.minimum))
            else None
  {
    NumeralReads(soa.serial);
    NumeralReads(soa.refresh);
    NumeralReads(soa.retry);
    NumeralReads(soa.expire);
    NumeralReads(soa.minimum);
    hide Words, NoParens, ReadUint32, Dec, IsName, Resolve;
    var ws := NameWords(data);
    assert |ws| == 7 <==> |a| == 1 && |b| == 1;
  }

  /** Reading the SOA's data, whatever the names are: either each holds a name and the SOA
      carries every number of the settings, or there is no SOA. */
  lemma SoaDataReads(owner: string, ttl: uint32, soa: SoaData, data: string, origin: string)
    requires Words(data) == Words(SoaNames(soa) + (" " + SoaTail(soa))) && Uncomment(data) == data
    ensures ReadSoa(owner, ttl, data, origin)
         == if HoldsName(Fqdn(soa.primaryNS)) && HoldsName(DnsMbox(soa.mbox))
            then Some(SoaRR(owner, ttl, NameIn(Fqdn(soa.primaryNS)), NameIn(DnsMbox(soa.mbox)), soa.serial,
                            soa.refresh, soa.retry, soa.expire, soa.minimum))
            else None
  {
    var ns, mbox := Fqdn(soa.primaryNS), DnsMbox(soa.mbox);
    AbsoluteWords(ns);
    AbsoluteWords(mbox);
    if HoldsName(ns) { NameInIsFqdn(ns); ResolveFqdnIsItself(NameIn(ns), origin); }
    if HoldsName(mbox) { NameInIsFqdn(mbox); ResolveFqdnIsItself(NameIn(mbox), origin); }
    SoaDataWords(soa);
    SameNameWords(data, SoaNames(soa) + (" " + SoaTail(soa)));
    hide ReadSoa, NameWords, SoaTail, SoaNames, SoaNumbers, Fqdn, DnsMbox, IsName, Resolve;
    SoaWordsDecide(owner, ttl, data, origin, NameWords(ns), NameWords(mbox), soa);
  }

  lemma SameNameWords(a: string, b: string)
    requires Words(a) == Words(b)
    ensures NameWords(a) == NameWords(b)
  {
  }

  lemma NothingToTrim(s: string)
    requires s != "" && !IsBlank(s[|s| - 1])
    ensures TrimBlanksRight(s) == s
  {
  }

  lemma SkippedData(names: string, tail: string)
    requires IsData(tail)
    ensures var d := SkipBlanks(names + (" " + tail));
            d != "" && !IsBlank(d[0]) && d[|d| - 1] == tail[|tail| - 1]
  {
    assert SkipBlanks(" " + tail) == tail by { assert (" " + tail)[1..] == tail; }
    SkipBlanksConcat(names, " " + tail);
    var skipped := SkipBlanks(names);
    hide SkipBlanks;
    if skipped != "" {
      var d := skipped + (" " + tail);
      assert d[0] == skipped[0] && d[|d| - 1] == tail[|tail| - 1];
    }
  }

  lemma DataTrimmed(names: string, tail: string)
    requires IsData(tail)
    ensures var data := names + (" " + tail);
            var d := SkipBlanks(data);
            && TrimBlanksRight(d) == d && Words(d) == Words(data)
            && d != "" && !IsBlank(d[0]) && !IsSpace(d[|d| - 1]) && |d| <= |data| && d == data[|data| - |d|..]
  {
    var data := names + (" " + tail);
    hide SkipBlanks, Words, TrimBlanksRight;
    SkippedData(names, tail);
    SkipBlanksIsSuffix(data);
    NothingToTrim(SkipBlanks(data));
    WordsSkip(data);
  }

  lemma WordsSkip(s: string)
    ensures Words(SkipBlanks(s)) == Words(s)
  {
    WordsFromSkip(SkipBlanks(s), s);
  }

  lemma SoaDataTrimmed(soa: SoaData)
    ensures var data := SoaNames(soa) + (" " + SoaTail(soa));
            var d := SkipBlanks(data);
            && TrimBlanksRight(d) == d && Words(d) == Words(data)
            && d != "" && !IsBlank(d[0]) && !IsSpace(d[|d| - 1]) && |d| <= |data| && d == data[|data| - |d|..]
  {
    hide *;
    SoaTailWords(soa);
    DataTrimmed(SoaNames(soa), SoaTail(soa));
  }

  lemma FirstWord(s: string)
    requires s != "" && !IsBlank(s[0])
    ensures Words(s) != [] && Words(s)[0] != "" && Words(s)[0][0] == s[0]
  {
    WordsOnce(s);
  }

  /** No word of a text that holds a name starts with white space. */
  lemma NameTextWords(s: string)
    requires HoldsName(s)
    ensures Words(s) != [] && forall w <- Words(s) :: w == "" || !IsSpace(w[0])
  {
    NameIsPlain(NameIn(s));
    forall w | w in Words(s) ensures w == "" || !IsSpace(w[0]) {
      NoParensMembers(Words(s), w);
    }
    hide Words;
  }

  /** Printed SOA data is one-line data, but for leading blanks, if the first text holds a name. */
  lemma SoaDataIsData(soa: SoaData)
    requires '\n' !in SoaNames(soa) && HoldsName(Fqdn(soa.primaryNS))
    ensures IsData(SkipBlanks(SoaNames(soa) + (" " + SoaTail(soa))))
  {
    var data := SoaNames(soa) + (" " + SoaTail(soa));
    SoaTailWords(soa);
    SoaDataTrimmed(soa);
    FirstWord(SkipBlanks(data));
    NameTextWords(Fqdn(soa.primaryNS));
    WordsConcat(SoaNames(soa), SoaTail(soa));
    WordsConcat(Fqdn(soa.primaryNS), DnsMbox(soa.mbox));
    hide Words, SoaTail, Fqdn, DnsMbox, HoldsName, SkipBlanks;
    assert Words(data)[0] == Words(Fqdn(soa.primaryNS))[0];
    assert '\n' !in data;
  }

  lemma SoaDataClean(soa: SoaData)
    requires '\n' !in Fqdn(soa.primaryNS) && '\n' !in DnsMbox(soa.mbox)
    requires ';' !in Fqdn(soa.primaryNS) && ';' !in DnsMbox(soa.mbox)
    ensures var data := SoaNames(soa) + (" " + SoaTail(soa));
            '\n' !in SoaNames(soa) && '\n' !in data && Uncomment(SkipBlanks(data)) == SkipBlanks(data)
  {
    var data := SoaNames(soa) + (" " + SoaTail(soa));
    SoaTailWords(soa);
    assert ';' !in data;
    SkipBlanksHold(data, ';');
    UncommentKeeps(SkipBlanks(data));
    hide Fqdn, DnsMbox, SoaTail;
  }

  /** The SOA line Build prints, with names on one line and without comment signs, reads back
      exactly when each holds a name, and then carries every number of the settings. */
  lemma BuildSoaLineExactly(soa: SoaData, origin: string, defaultTtl: Option<uint32>)
    requires '\n' !in Fqdn(soa.primaryNS) && '\n' !in DnsMbox(soa.mbox)
    requires ';' !in Fqdn(soa.primaryNS) && ';' !in DnsMbox(soa.mbox)
    ensures '\n' !in BuildSoaLine(soa)
    ensures ReadLine(BuildSoaLine(soa), origin, defaultTtl)
         == if HoldsName(Fqdn(soa.primaryNS)) && HoldsName(DnsMbox(soa.mbox))
            then Resource(RequestedSoa(origin, soa)) else Malformed
  {
    var data := SoaNames(soa) + (" " + SoaTail(soa));
    SoaDataClean(soa);
    hide BuildSoaLine, ReadLine, ReadSoa, SoaTail, SoaNames, NameIn, RecordLine, Words, Fqdn, DnsMbox, SkipBlanks,
         TrimBlanksRight, HoldsName, IsData;
    BuildSoaData(soa);
    SoaDataTrimmed(soa);
    SoaDataReads(origin, EffectiveTtl(soa), soa, SkipBlanks(data), origin);
    AnySoaLineReads(EffectiveTtl(soa), data, origin, defaultTtl);
    SoaLineOnOneLine(EffectiveTtl(soa), data);
    if HoldsName(Fqdn(soa.primaryNS)) { SoaDataIsData(soa); }
  }

  lemma SoaLineOnOneLine(ttl: uint32, data: string)
    requires '\n' !in data
    ensures '\n' !in RecordLine(' ', "@", ttl, "SOA", data)
  {
    DigitsArePlain(Dec(ttl));
    CellHasNoNewline("SOA", ' ', data);
    CellHasNoNewline("IN", ' ', Cell("SOA", ' ', data));
    CellHasNoNewline(Dec(ttl), ' ', Cell("IN", ' ', Cell("SOA", ' ', data)));
    CellHasNoNewline("@", ' ', Cell(Dec(ttl), ' ', Cell("IN", ' ', Cell("SOA", ' ', data))));
  }

  lemma BuildSoaLineReads(soa: SoaData, origin: string, defaultTtl: Option<uint32>)
    requires HoldsName(Fqdn(soa.primaryNS)) && HoldsName(DnsMbox(soa.mbox))
    ensures '\n' !in BuildSoaLine(soa)
    ensures ReadLine(BuildSoaLine(soa), origin, defaultTtl) == Resource(RequestedSoa(origin, soa))
  {
    NameInHolds(Fqdn(soa.primaryNS), '.');
    NameInHolds(DnsMbox(soa.mbox), '.');
    BuildSoaLineExactly(soa, origin, defaultTtl);
  }

  lemma ApexIsFqdn(origin: string)
    requires IsName(Apex(origin))
    ensures IsFqdnName(Apex(origin))
  {
    SkipBlanksIsSuffix(Fqdn(origin));
  }

  lemma BuildTextScan(origin: string, soa: SoaData, recs: seq<Record>)
    requires GoodSettings(origin, soa)
    requires forall i :: 0 <= i < |recs| ==> Printable(recs[i])
    ensures ScanText(BuildText(origin, soa, recs), Fqdn(origin))
         == Scanned(RequestedZone(origin, soa, recs).records, true)
  {
    var o, ttl := Apex(origin), EffectiveTtl(soa);
    var lines, soaLine := BuildLines(recs, ttl), BuildSoaLine(soa);
    ApexIsFqdn(origin);
    OriginLineScan(Fqdn(origin), "$TTL " + Dec(ttl) + "\n" + (soaLine + "\n" + lines), Fqdn(origin), None);
    TtlLineScan(ttl, soaLine + "\n" + lines, o, None);
    BuildSoaLineReads(soa, o, Some(ttl));
    ResourceLineScan(soaLine, RequestedSoa(o, soa), lines, o, Some(ttl));
    BuildLinesScan(recs, ttl, o, Some(ttl));
  }

  lemma RequestedWellFormed(r: Record, origin: string, zoneTtl: uint32)
    requires Printable(r) && IsFqdnName(origin) && zoneTtl > 0
    ensures var rr := Requested(r, origin, zoneTtl); WellFormed(rr) && rr.ttl > 0 && !IsPrivate(rr.rtype)
  {
    assert IsName("@");
    ResolveIsFqdn(if r.name == "" then "@" else r.name, origin);
  }

  lemma RequestedSoaWellFormed(origin: string, soa: SoaData)
    requires GoodSettings(origin, soa)
    ensures WellFormed(RequestedSoa(Apex(origin), soa))
  {
    ApexIsFqdn(origin);
    NameInIsFqdn(Fqdn(soa.primaryNS));
    NameInIsFqdn(DnsMbox(soa.mbox));
    hide IsFqdnName, NameIn, HoldsName, DnsMbox, Apex;
  }

  lemma RequestedRecords(origin: string, soa: SoaData, recs: seq<Record>, i: nat)
    requires GoodSettings(origin, soa) && i < |RequestedZone(origin, soa, recs).records|
    requires forall k :: 0 <= k < |recs| ==> Printable(recs[k])
    ensures var rr := RequestedZone(origin, soa, recs).records[i];
            && WellFormed(rr) && rr.ttl > 0
            && (i == 0 ==> rr == RequestedSoa(Apex(origin), soa))
            && (i > 0 ==> rr.DataRR? && !IsPrivate(rr.rtype))
  {
    ApexIsFqdn(origin);
    RequestedAt(origin, soa, recs, i);
    hide WellFormed, Printable, IsFqdnName, IsPrivate, Apex, HoldsName, RequestedZone, Requested, RequestedSoa;
    if i == 0 {
      RequestedSoaWellFormed(origin, soa);
    } else {
      RequestedWellFormed(recs[i - 1], Apex(origin), EffectiveTtl(soa));
    }
  }

  lemma RequestedAt(origin: string, soa: SoaData, recs: seq<Record>, i: nat)
    requires i < |RequestedZone(origin, soa, recs).records|
    ensures i <= |recs|
    ensures RequestedZone(origin, soa, recs).records[i]
         == if i == 0 then RequestedSoa(Apex(origin), soa) else Requested(recs[i - 1], Apex(origin), EffectiveTtl(soa))
  {
    hide Apex, RequestedSoa, Requested, EffectiveTtl, Fqdn;
  }

  lemma RequestedIsBuilt(origin: string, soa: SoaData, recs: seq<Record>)
    requires GoodSettings(origin, soa)
    requires forall i :: 0 <= i < |recs| ==> Printable(recs[i])
    ensures IsBuilt(RequestedZone(origin, soa, recs), origin)
  {
    var z := RequestedZone(origin, soa, recs);
    ApexIsFqdn(origin);
    assert |z.records| == |recs| + 1 && z.origin == Fqdn(origin) && SkipBlanks(z.origin) == Apex(origin);
    hide GoodSettings, WellFormed, Printable, IsFqdnName, IsPrivate, RequestedZone, Apex, SkipBlanks, NameIn, Fqdn,
         DnsMbox;
    RequestedRecords(origin, soa, recs, 0);
    forall i | 0 <= i < |z.records|
      ensures WellFormed(z.records[i]) && z.records[i].ttl > 0
      ensures i > 0 ==> z.records[i].DataRR? && !IsPrivate(z.records[i].rtype)
    {
      RequestedRecords(origin, soa, recs, i);
    }
  }

  /** Build gives exactly one SOA followed by the requested records, in order. */
  lemma BuildParses(origin: string, soa: SoaData, recs: seq<Record>)
    requires GoodSettings(origin, soa)
    requires forall i :: 0 <= i < |recs| ==> Printable(recs[i])
    ensures BuildZone(origin, soa, recs) == Ok(RequestedZone(origin, soa, recs))
    ensures IsBuilt(RequestedZone(origin, soa, recs), origin)
  {
    BuildTextScan(origin, soa, recs);
    RequestedIsBuilt(origin, soa, recs);
  }

  // ---------------------------------------------------------------------
  // Mailboxes
  // ---------------------------------------------------------------------

  lemma {:induction false} ReplaceFirstAtCount(s: string)
    ensures multiset(ReplaceFirstAt(s))['@'] == if multiset(s)['@'] == 0 then 0 else multiset(s)['@'] - 1
    ensures '@' !in s ==> ReplaceFirstAt(s) == s
  {
    if s != "" {
      assert s == [s[0]] + s[1..];
      if s[0] != '@' { ReplaceFirstAtCount(s[1..]); }
    }
  }

  /** The mailbox form is free of '@' exactly when the address had at most one. */
  lemma MboxFreeOfAt(s: string)
    ensures '@' !in DnsMbox(s) <==> multiset(s)['@'] <= 1
  {
    ReplaceFirstAtCount(s);
    var t := ReplaceFirstAt(s);
    assert '@' in t <==> multiset(t)['@'] > 0;
    assert '@' in Fqdn(t) <==> '@' in t;
  }

  /** Each conversion takes one '@' away while there is one. */
  lemma MboxTakesOneAt(s: string)
    ensures multiset(DnsMbox(s))['@'] == if multiset(s)['@'] == 0 then 0 else multiset(s)['@'] - 1
  {
    ReplaceFirstAtCount(s);
  }

  /** The mailbox an SOA gets from an address is free of '@' exactly when the address had at
      most one. */
  lemma MailboxFreeOfAt(s: string)
    requires HoldsName(DnsMbox(s))
    ensures '@' !in NameIn(DnsMbox(s)) <==> multiset(s)['@'] <= 1
  {
    MboxFreeOfAt(s);
    NameInHolds(DnsMbox(s), '@');
    hide DnsMbox, NameIn, HoldsName;
  }

  lemma {:induction false} ReplaceFirstAtLength(s: string)
    ensures |ReplaceFirstAt(s)| == |s|
    ensures forall i :: 0 <= i < |s| ==> ReplaceFirstAt(s)[i] == s[i] || (s[i] == '@' && ReplaceFirstAt(s)[i] == '.')
  {
    if s != "" && s[0] != '@' { ReplaceFirstAtLength(s[1..]); }
  }

  /** Converting an absolute mailbox again leaves it alone exactly when it has no '@'. */
  lemma {:induction false} ReplaceFirstAtFixpoint(s: string)
    ensures ReplaceFirstAt(s) == s <==> '@' !in s
  {
    if s != "" && s[0] != '@' {
      ReplaceFirstAtFixpoint(s[1..]);
      assert ReplaceFirstAt(s)[1..] == ReplaceFirstAt(s[1..]);
    }
  }

  lemma MboxFixpoint(mbox: string)
    requires IsAbsolute(mbox)
    ensures DnsMbox(mbox) == mbox <==> '@' !in mbox
  {
    ReplaceFirstAtFixpoint(mbox);
    ReplaceFirstAtLength(mbox);
    assert IsAbsolute(ReplaceFirstAt(mbox));
  }

  lemma MboxStaysName(mbox: string)
    requires IsFqdnName(mbox)
    ensures IsName(DnsMbox(mbox))
  {
    ReplaceFirstAtLength(mbox);
    var t := DnsMbox(mbox);
    assert t[0] != '$';
    forall i | 0 <= i < |t| ensures IsNameChar(t[i]) {
      if i < |mbox| { assert IsNameChar(mbox[i]); }
    }
  }

  // ---------------------------------------------------------------------
  // Rebuilding
  // ---------------------------------------------------------------------

  lemma ViewIsNoSoa(rr: RR)
    requires rr.DataRR? && rr.rtype != "SOA"
    ensures View(rr).rtype != "SOA"
  {
    hide IsPrivate;
  }

  lemma {:induction false} DataRecordsOfData(rrs: seq<RR>)
    requires forall i :: 0 <= i < |rrs| ==> rrs[i].DataRR? && rrs[i].rtype != "SOA"
    ensures DataRecordsOf(rrs) == seq(|rrs|, i requires 0 <= i < |rrs| => View(rrs[i]))
  {
    if rrs != [] {
      ViewIsNoSoa(rrs[0]);
      hide View;
      DataRecordsOfData(rrs[1..]);
      assert DataRecordsOf(rrs) == [View(rrs[0])] + DataRecordsOf(rrs[1..]);
      hide DataRecordsOf;
    }
  }

  /** The data records of a built zone are the views of everything after the SOA. */
  lemma BuiltDataRecords(z: ZoneData, origin: string)
    requires IsBuilt(z, origin)
    ensures SoaIndex(z.records) == 0
    ensures DataRecordsOf(z.records)
         == seq(|z.records| - 1, i requires 0 <= i < |z.records| - 1 => View(z.records[i + 1]))
  {
    DataRecordsOfData(z.records[1..]);
  }

  lemma ResolveFqdnIsItself(s: string, origin: string)
    requires IsFqdnName(s)
    ensures Resolve(s, origin) == s && Fqdn(s) == s
  {
    assert s != "@";
  }

  lemma RequestedOfView(rr: RR, origin: string, zoneTtl: uint32)
    requires WellFormed(rr) && rr.DataRR? && rr.ttl > 0 && !IsPrivate(rr.rtype)
    ensures Printable(View(rr)) && Requested(View(rr), origin, zoneTtl) == rr
  {
    ResolveFqdnIsItself(rr.owner, origin);
  }

  lemma RequestedOfBuilt(z: ZoneData, origin: string)
    requires IsBuilt(z, origin)
    ensures HasSoa(z)
    ensures GoodSettings(origin, SoaOf(z))
    ensures forall r <- DataRecordsOf(z.records) :: Printable(r)
    ensures RequestedZone(origin, SoaOf(z), DataRecordsOf(z.records))
         == z.(records := [z.records[0].(mbox := DnsMbox(z.records[0].mbox))] + z.records[1..])
  {
    BuiltDataRecords(z, origin);
    var soa, recs := SoaOf(z), DataRecordsOf(z.records);
    var apex := SkipBlanks(z.origin);
    var first, rest := z.records[0], z.records[1..];
    assert WellFormed(first) && first.ttl > 0;
    ResolveFqdnIsItself(soa.primaryNS, apex);
    MboxStaysName(soa.mbox);
    NameHoldsItself(soa.primaryNS);
    NameHoldsItself(DnsMbox(soa.mbox));
    hide NameIn, HoldsName;
    forall i | 0 <= i < |recs| ensures Printable(recs[i]) && Requested(recs[i], apex, soa.ttl) == rest[i] {
      assert WellFormed(z.records[i + 1]) && z.records[i + 1].ttl > 0;
      RequestedOfView(z.records[i + 1], apex, soa.ttl);
    }
    assert RequestedAll(recs, apex, soa.ttl) == rest;
  }

  /** Rebuilding a built zone from its SOA fields and data records gives it back exactly
      when its mailbox holds no '@'. */
  lemma RebuildIsFixpoint(z: ZoneData, origin: string)
    requires IsBuilt(z, origin)
    ensures HasSoa(z)
    ensures BuildZone(origin, SoaOf(z), DataRecordsOf(z.records)).Ok?
    ensures BuildZone(origin, SoaOf(z), DataRecordsOf(z.records)) == Ok(z) <==> '@' !in z.records[0].mbox
  {
    RequestedOfBuilt(z, origin);
    BuildParses(origin, SoaOf(z), DataRecordsOf(z.records));
    assert WellFormed(z.records[0]);
    MboxFixpoint(z.records[0].mbox);
    assert z.records == [z.records[0]] + z.records[1..];
  }

  lemma RequestedBump(origin: string, soa: SoaData, recs: seq<Record>, serial: uint32)
    ensures HasSoa(RequestedZone(origin, soa, recs))
    ensures RequestedZone(origin, soa.(serial := serial), recs) == WithSerial(RequestedZone(origin, soa, recs), serial)
  {
    var a, b := RequestedZone(origin, soa, recs), RequestedZone(origin, soa.(serial := serial), recs);
    assert SoaIndex(a.records) == 0;
    assert b.records == a.records[0 := a.records[0].(serial := serial)];
  }

  /** Bumping the serial of a built zone is building it with that serial. */
  lemma BumpIsRebuild(origin: string, soa: SoaData, recs: seq<Record>, serial: uint32)
    requires GoodSettings(origin, soa)
    requires forall i :: 0 <= i < |recs| ==> Printable(recs[i])
    ensures BuildZone(origin, soa, recs).Ok? && HasSoa(BuildZone(origin, soa, recs).value)
    ensures BuildZone(origin, soa.(serial := serial), recs)
         == Ok(WithSerial(BuildZone(origin, soa, recs).value, serial))
  {
    BuildParses(origin, soa, recs);
    BuildParses(origin, soa.(serial := serial), recs);
    RequestedBump(origin, soa, recs, serial);
  }

  // ---------------------------------------------------------------------
  // Normalising a single record
  // ---------------------------------------------------------------------

  /** What the store keeps: an absolute owner, a type other than SOA, one-line data. */
  predicate Canonical(r: Record) {
    IsFqdnName(r.name) && IsMnemonic(r.rtype) && r.rtype != "SOA" && IsData(r.data)
  }

  /** What it keeps of a record whose type has no mnemonic: an empty type. */
  predicate Typeless(r: Record) {
    IsFqdnName(r.name) && r.rtype == "" && IsGeneric(r.data)
  }

  lemma ViewIsStorable(rr: RR)
    requires WellFormed(rr) && rr.DataRR?
    ensures var r := View(rr); if IsPrivate(rr.rtype) then Typeless(r) else Canonical(r) && Printable(r)
  {
  }

  /** Whatever strings come in, for a zone name on one line, a record that normalises is
      canonical and prints as exactly one line, unless its type has no mnemonic; then it is
      stored without a type. */
  lemma NormalizedIsCanonical(origin: string, name: string, ttl: uint32, rtype: string, data: string)
    requires '\n' !in origin
    ensures var r := NormalizeRecord(origin, name, ttl, rtype, data);
            r.Ok? ==>
              if r.value.rtype == "" then Typeless(r.value)
              else Canonical(r.value) && Printable(r.value) && '\n' !in BuildLine(r.value, 3600)
  {
    var line := NormalizeLine(name, ttl, rtype, data);
    NewRRWellFormed(line, origin);
    hide NewRR, NormalizeLine, ReadLine, BuildLine;
    var rr := NewRR(line, origin);
    if rr.Ok? && rr.value.DataRR? {
      ViewIsStorable(rr.value);
      if !IsPrivate(rr.value.rtype) {
        BuildLineReads(View(rr.value), 3600, Fqdn(origin), None);
      }
    }
  }

  /** What an origin line on one line does: it names a zone, or nothing after it is read. */
  lemma AnyOriginScan(o: string, rest: string, origin: string, defaultTtl: Option<uint32>)
    requires '\n' !in o && IsAbsolute(o)
    ensures Scan(Split("$ORIGIN " + o + "\n" + rest, '\n'), origin, defaultTtl)
         == if IsName(SkipBlanks(o)) then Scan(Split(rest, '\n'), SkipBlanks(o), defaultTtl) else Scanned([], false)
  {
    if IsName(SkipBlanks(o)) {
      SkipBlanksIsSuffix(o);
      OriginLineScan(o, rest, origin, defaultTtl);
    } else {
      var line := "$ORIGIN " + o;
      OriginLineFails(o, origin, defaultTtl);
      hide ReadLine, Split, Scan, IsName, SkipBlanks;
      SplitFirst(line, '\n', rest);
      ScanOnce(Split(line + "\n" + rest, '\n'), origin, defaultTtl);
    }
  }

  lemma OriginLineFails(o: string, origin: string, defaultTtl: Option<uint32>)
    requires '\n' !in o && IsAbsolute(o) && !IsName(SkipBlanks(o))
    ensures '\n' !in "$ORIGIN " + o && ReadLine("$ORIGIN " + o, origin, defaultTtl).Malformed?
  {
    OriginLineTokens(o);
    AbsoluteTrims(o);
    hide NextToken, TrimBlanksRight, IsName, Resolve, Interpret, ReadFields;
  }

  lemma AbsoluteTrims(o: string)
    requires IsAbsolute(o)
    ensures TrimBlanksRight(SkipBlanks(o)) == SkipBlanks(o) && SkipBlanks(o) != ""
  {
    SkipBlanksIsSuffix(o);
    SkipBlanksHold(o, '.');
  }

  lemma FqdnOneLine(origin: string)
    ensures '\n' in Fqdn(origin) <==> '\n' in origin
    ensures IsAbsolute(Fqdn(origin))
  {
  }

  lemma NewRRWellFormed(line: string, origin: string)
    requires '\n' !in origin
    ensures var r := NewRR(line, origin); r.Ok? ==> WellFormed(r.value) && IsName(Apex(origin))
  {
    var o, rest := Fqdn(origin), "$TTL " + Dec(3600) + "\n" + (line + "\n");
    FqdnOneLine(origin);
    AnyOriginScan(o, rest, o, None);
    if IsName(Apex(origin)) {
      ApexIsFqdn(origin);
      ScanWellFormed(Split(rest, '\n'), Apex(origin), None);
    }
    hide Scan, Split, Dec, WellFormed, IsName;
  }

  lemma NewRRReads(rr: RR, sep: char, owner: string, ttl: uint32, origin: string)
    requires IsName(Apex(origin)) && IsBlank(sep) && IsName(owner) && rr.DataRR? && IsType(rr.rtype)
    requires rr.rtype != "SOA"
    requires IsDataOf(rr.rtype, rr.data) && rr.owner == Resolve(owner, Apex(origin)) && rr.ttl == ttl
    ensures NewRR(RecordLine(sep, owner, ttl, rr.rtype, rr.data), origin) == Ok(rr)
  {
    var o, line := Apex(origin), RecordLine(sep, owner, ttl, rr.rtype, rr.data);
    ApexIsFqdn(origin);
    OriginLineScan(Fqdn(origin), "$TTL " + Dec(3600) + "\n" + (line + "\n"), Fqdn(origin), None);
    TtlLineScan(3600, line + "\n", o, None);
    DataLineReads(sep, owner, ttl, rr.rtype, rr.data, o, Some(3600));
    OneLineScan(line, rr, o, Some(3600));
  }

  lemma ToUpperKeepsType(s: string)
    requires IsType(s)
    ensures ToUpper(TrimSpace(s)) == s
  {
    TrimSpaceKeeps(s);
  }

  /** Normalising is idempotent: a canonical record with a TTL of its own is its own normal form. */
  lemma NormalizeIsIdempotent(r: Record, origin: string)
    requires IsName(Apex(origin)) && Canonical(r) && r.ttl > 0
    ensures NormalizeRecord(origin, r.name, r.ttl, r.rtype, r.data) == Ok(r)
  {
    ResolveFqdnIsItself(r.name, Apex(origin));
    NormalLineIs(r);
    assert Mnemonic(r.rtype) == r.rtype;
    hide NewRR, IsFqdnName, IsType, IsPrivate, NormalizeLine, RecordLine, Apex, Mnemonic, IsName, Resolve;
    NewRRReads(DataRR(r.name, r.ttl, r.rtype, r.data), ' ', r.name, r.ttl, origin);
  }

  lemma NormalLineIs(r: Record)
    requires IsName(r.name) && IsType(r.rtype) && IsData(r.data) && r.ttl > 0
    ensures NormalizeLine(r.name, r.ttl, r.rtype, r.data) == RecordLine(' ', r.name, r.ttl, r.rtype, r.data)
  {
    ToUpperKeepsType(r.rtype);
    TrimSpaceKeeps(r.data);
    hide RecordLine, TrimSpace, ToUpper;
  }
}
