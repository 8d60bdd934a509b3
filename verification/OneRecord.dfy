/**
 The one-record contract of newRRWithOrigin (internal/zone/edit.go): which inputs it accepts,
 and when an accepted one really is one record.
 */
module OneRecord {
  import opened Text
  import opened Serial
  import opened ZoneText
  import opened ZoneLaws

  /** How the parser would read each line in turn, malformed ones changing nothing. */
  function ReadAll(lines: seq<string>, origin: string, defaultTtl: Option<uint32>): (es: seq<Entry>)
    ensures |es| == |lines|
  {
    if lines == [] then []
    else
      var e := ReadLine(lines[0], origin, defaultTtl);
      [e] + ReadAll(lines[1..], if e.Origin? then e.name else origin, if e.DefaultTtl? then Some(e.ttl) else defaultTtl)
  }

  /** The records before the first malformed line. */
  function RecordsRead(es: seq<Entry>): seq<RR> {
    if es == [] || es[0].Malformed? then [] else (if es[0].Resource? then [es[0].rr] else []) + RecordsRead(es[1..])
  }

  predicate NoneMalformed(es: seq<Entry>) {
    es == [] || (!es[0].Malformed? && NoneMalformed(es[1..]))
  }

  /** The lines of an edit as newRRWithOrigin's parser meets them. */
  function EntriesOf(line: string, origin: string): seq<Entry> {
    ReadAll(Split(line, '\n'), Apex(origin), Some(3600))
  }

  /** What the documentation promises of an accepted input: one record and nothing wrong. */
  predicate IsOneRecord(line: string, origin: string) {
    NoneMalformed(EntriesOf(line, origin)) && |RecordsRead(EntriesOf(line, origin))| == 1
  }

  /** The parser returns the records before the first malformed line, and whether it met one. */
  lemma {:induction false} ScanStopsAtMalformed(lines: seq<string>, origin: string, defaultTtl: Option<uint32>)
    ensures var es := ReadAll(lines, origin, defaultTtl);
            Scan(lines, origin, defaultTtl) == Scanned(RecordsRead(es), NoneMalformed(es))
  {
    if lines != [] {
      var e := ReadLine(lines[0], origin, defaultTtl);
      var origin', ttl' := if e.Origin? then e.name else origin, if e.DefaultTtl? then Some(e.ttl) else defaultTtl;
      ScanOnce(lines, origin, defaultTtl);
      ScanStopsAtMalformed(lines[1..], origin', ttl');
      assert ReadAll(lines, origin, defaultTtl) == [e] + ReadAll(lines[1..], origin', ttl');
      hide ReadLine, Scan, ReadAll;
    }
  }

  /** The first malformed line ends the reading, whatever follows it. */
  lemma {:induction false} MalformedEnds(es: seq<Entry>, m: nat)
    requires m < |es| && es[m].Malformed? && forall i :: 0 <= i < m ==> !es[i].Malformed?
    ensures RecordsRead(es) == RecordsRead(es[..m]) && !NoneMalformed(es)
  {
    if m > 0 {
      MalformedEnds(es[1..], m - 1);
      assert es[..m][1..] == es[1..][..m - 1];
    }
  }

  lemma {:induction false} FindMalformed(es: seq<Entry>) returns (m: nat)
    requires !NoneMalformed(es)
    ensures m < |es| && es[m].Malformed? && forall i :: 0 <= i < m ==> !es[i].Malformed?
  {
    if es[0].Malformed? {
      m := 0;
    } else {
      m := FindMalformed(es[1..]);
      m := m + 1;
    }
  }

  lemma {:induction false} SplitTrailing(s: string)
    ensures Split(s + "\n", '\n') == Split(s, '\n') + [""]
  {
    if s == "" {
      assert Split("\n", '\n') == [""] + Split("", '\n') by { assert "\n"[1..] == ""; }
    } else {
      SplitTrailing(s[1..]);
      assert (s + "\n")[1..] == s[1..] + "\n";
    }
  }

  lemma {:induction false} TrailingBlank(lines: seq<string>, origin: string, defaultTtl: Option<uint32>)
    ensures ReadAll(lines + [""], origin, defaultTtl) == ReadAll(lines, origin, defaultTtl) + [Blank]
  {
    if lines == [] {
      assert [""][1..] == [];
      assert ReadAll([""], origin, defaultTtl) == [Blank];
    } else {
      var e := ReadLine(lines[0], origin, defaultTtl);
      assert (lines + [""])[1..] == lines[1..] + [""];
      TrailingBlank(lines[1..], if e.Origin? then e.name else origin,
                    if e.DefaultTtl? then Some(e.ttl) else defaultTtl);
      hide ReadLine;
    }
  }

  lemma {:induction false} BlankAddsNothing(es: seq<Entry>)
    ensures NoneMalformed(es + [Blank]) == NoneMalformed(es)
    ensures RecordsRead(es + [Blank]) == RecordsRead(es)
  {
    if es == [] {
      assert [Blank][1..] == [] && RecordsRead([Blank]) == [] + RecordsRead([Blank][1..]);
    } else {
      assert (es + [Blank])[1..] == es[1..] + [Blank];
      BlankAddsNothing(es[1..]);
    }
  }

  /** The text newRRWithOrigin gives its parser. */
  function EditText(line: string, origin: string): string {
    "$ORIGIN " + Fqdn(origin) + "\n" + ("$TTL " + Dec(3600) + "\n" + (line + "\n"))
  }

  /** For every zone name and input: accepted if and only if the parser's text has exactly one
      record before its first malformed line. */
  lemma AcceptedAnywhere(line: string, origin: string)
    ensures var records := RecordsRead(ReadAll(Split(EditText(line, origin), '\n'), Fqdn(origin), None));
            && (NewRR(line, origin).Ok? <==> |records| == 1)
            && (NewRR(line, origin).Ok? ==> NewRR(line, origin).value == records[0])
  {
    ScanStopsAtMalformed(Split(EditText(line, origin), '\n'), Fqdn(origin), None);
    hide Scan, Split, ReadAll, RecordsRead, NoneMalformed, Dec, Fqdn;
  }

  /** What that text scans to under a zone name on one line. */
  lemma EditScan(line: string, origin: string)
    requires '\n' !in origin
    ensures var es := EntriesOf(line, origin);
            ScanText(EditText(line, origin), Fqdn(origin))
            == if IsName(Apex(origin)) then Scanned(RecordsRead(es), NoneMalformed(es)) else Scanned([], false)
  {
    var o, es := Apex(origin), EntriesOf(line, origin);
    FqdnOneLine(origin);
    AnyOriginScan(Fqdn(origin), "$TTL " + Dec(3600) + "\n" + (line + "\n"), Fqdn(origin), None);
    TtlLineScan(3600, line + "\n", o, None);
    SplitTrailing(line);
    TrailingBlank(Split(line, '\n'), o, Some(3600));
    ScanStopsAtMalformed(Split(line + "\n", '\n'), o, Some(3600));
    hide Scan, Split, ReadAll, Dec, IsName, RecordsRead, NoneMalformed;
    BlankAddsNothing(es);
  }

  /** Exactly what is accepted under a zone name on one line: the name is one, and exactly one
      record precedes the first malformed line, if any. The accepted record is that one. */
  lemma AcceptedExactly(line: string, origin: string)
    requires '\n' !in origin
    ensures NewRR(line, origin).Ok? <==> IsName(Apex(origin)) && |RecordsRead(EntriesOf(line, origin))| == 1
    ensures NewRR(line, origin).Ok? ==> NewRR(line, origin).value == RecordsRead(EntriesOf(line, origin))[0]
  {
    EditScan(line, origin);
    hide ScanText, Dec, IsName, EntriesOf, RecordsRead, Apex;
  }

  /** Exactly when the documented promise fails: the first malformed line follows a single
      record. Every input that is one record is accepted. */
  lemma AcceptedWithRubbish(line: string, origin: string)
    requires '\n' !in origin
    ensures IsName(Apex(origin)) && IsOneRecord(line, origin) ==> NewRR(line, origin).Ok?
    ensures var es := EntriesOf(line, origin);
            NewRR(line, origin).Ok? && !IsOneRecord(line, origin)
            <==> IsName(Apex(origin)) && exists m :: FollowsOneRecord(es, m)
  {
    var es := EntriesOf(line, origin);
    AcceptedExactly(line, origin);
    hide NewRR, EntriesOf, IsName, RecordsRead, NoneMalformed;
    if NewRR(line, origin).Ok? && !IsOneRecord(line, origin) {
      var m := FindMalformed(es);
      MalformedEnds(es, m);
      assert FollowsOneRecord(es, m);
    }
    forall m | FollowsOneRecord(es, m) ensures |RecordsRead(es)| == 1 && !NoneMalformed(es) {
      MalformedEnds(es, m);
    }
  }

  /** Line m is the first malformed one, and there is one record before it. */
  predicate FollowsOneRecord(es: seq<Entry>, m: int) {
    && 0 <= m < |es| && es[m].Malformed?
    && (forall i :: 0 <= i < m ==> !es[i].Malformed?)
    && |RecordsRead(es[..m])| == 1
  }

  /** On one line the promise always holds: what is accepted is one record, and a line that
      reads as one is accepted. */
  lemma OneLineExactly(line: string, origin: string)
    requires '\n' !in line && '\n' !in origin
    ensures NewRR(line, origin).Ok? <==> IsName(Apex(origin)) && ReadLine(line, Apex(origin), Some(3600)).Resource?
    ensures NewRR(line, origin).Ok? ==>
              IsOneRecord(line, origin) && NewRR(line, origin).value == ReadLine(line, Apex(origin), Some(3600)).rr
  {
    SplitNone(line, '\n');
    AcceptedExactly(line, origin);
    ReadOne(line, Apex(origin), Some(3600));
    hide NewRR, ReadLine, ReadAll, IsName, Split, Apex, RecordsRead, NoneMalformed;
    OneEntry(ReadLine(line, Apex(origin), Some(3600)));
  }

  lemma ReadOne(line: string, origin: string, defaultTtl: Option<uint32>)
    ensures ReadAll([line], origin, defaultTtl) == [ReadLine(line, origin, defaultTtl)]
  {
    assert [line][1..] == [];
    hide ReadLine;
  }

  lemma OneEntry(e: Entry)
    ensures RecordsRead([e]) == (if e.Resource? then [e.rr] else [])
    ensures NoneMalformed([e]) <==> !e.Malformed?
  {
    assert [e][1..] == [] && RecordsRead([]) == [] && NoneMalformed([]);
  }

  // ---------------------------------------------------------------------
  // An input the promise fails on
  // ---------------------------------------------------------------------

  const GOOD_LINE: string := "www 60 IN A 192.0.2.1"
  const RUBBISH: string := "!!"

  lemma RubbishIsMalformed(origin: string, defaultTtl: Option<uint32>)
    ensures ReadLine(RUBBISH, origin, defaultTtl).Malformed? && '\n' !in RUBBISH
  {
    TokenLengthAll("!!");
    assert "!!"[..2] == "!!" && "!!"[2..] == "";
    assert NextToken("!!") == ("!!", "");
    assert NextToken("") == ("", "");
    hide NextToken, Interpret, IsName;
    var f := ReadFields("!!", defaultTtl);
    assert f.rtype == "";
    RecordLineReads("!!", origin, defaultTtl);
    NoType(f, origin);
  }

  lemma NoType(f: Fields, origin: string)
    requires f.rtype == ""
    ensures Interpret(f, origin).None?
  {
  }

  lemma GoodLineIs()
    ensures GOOD_LINE == RecordLine(' ', "www", 60, "A", "192.0.2.1")
  {
    assert Dec(60) == "60" by { assert Dec(6) == "6"; }
    hide Dec;
  }

  lemma GoodLineParts()
    ensures IsName("www") && IsType("A") && IsDataOf("A", "192.0.2.1") && IsBlank(' ')
  {
  }

  lemma GoodLineReads(o: string)
    ensures '\n' !in GOOD_LINE && ReadLine(GOOD_LINE, o, Some(3600)).Resource?
  {
    GoodLineIs();
    GoodLineParts();
    hide ReadLine, RecordLine, IsName, IsType, IsDataOf;
    DataLineReads(' ', "www", 60, "A", "192.0.2.1", o, Some(3600));
  }

  lemma ExampleIsName()
    ensures IsName(Apex("example.com")) && '\n' !in "example.com"
  {
    assert Fqdn("example.com") == "example.com." && SkipBlanks("example.com.") == "example.com.";
  }

  /** A good record, a line break and rubbish: accepted, though not one record. */
  lemma RubbishIsAccepted()
    ensures NewRR(GOOD_LINE + "\n" + RUBBISH, "example.com").Ok?
    ensures !IsOneRecord(GOOD_LINE + "\n" + RUBBISH, "example.com")
  {
    var line, o := GOOD_LINE + "\n" + RUBBISH, Apex("example.com");
    ExampleIsName();
    GoodLineReads(o);
    RubbishIsMalformed(o, Some(3600));
    hide ReadLine, NewRR, IsName, Apex, GOOD_LINE, RUBBISH;
    var a, b := ReadLine(GOOD_LINE, o, Some(3600)), ReadLine(RUBBISH, o, Some(3600));
    SplitFirst(GOOD_LINE, '\n', RUBBISH);
    SplitNone(RUBBISH, '\n');
    ReadOne(RUBBISH, o, Some(3600));
    assert ([GOOD_LINE] + [RUBBISH])[1..] == [RUBBISH];
    var es := EntriesOf(line, "example.com");
    assert es == [a] + [b];
    OneEntry(a);
    assert es[..1] == [a];
    assert FollowsOneRecord(es, 1);
    AcceptedWithRubbish(line, "example.com");
  }
}
