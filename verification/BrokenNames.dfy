/**
 Inputs that the check of the create and settings handlers accepts and that fix the serial of
 whatever is built: a line break in a name, a comment sign in a name, and an SOA in the zone
 name itself. Also a line break in a zone name that does no harm to the serial, and one that
 gets into a record.
 */
module BrokenNames {
  import opened Text
  import opened Serial
  import opened ZoneText
  import opened ZoneLaws
  import opened Settings
  import UnknownTypes

  /** What these settings build with this serial has the SOA serial c. */
  predicate BuildsWith(zone: string, soa: SoaData, serial: uint32, c: uint32) {
    var z := BuildZone(zone, soa.(serial := serial), []);
    z.Ok? && HasSoa(z.value) && SoaOf(z.value).serial == c
  }

  /** The settings are accepted, and whatever serial the zone has, what they build has c. */
  ghost predicate FixesSerial(zone: string, soa: SoaData, c: uint32) {
    Accepted(zone, soa) && forall serial :: BuildsWith(zone, soa, serial, c)
  }

  const MBOX: string := "admin@example.com"

  lemma MboxIsClean()
    ensures '\n' !in MBOX && ';' !in MBOX
  {
  }

  // ---------------------------------------------------------------------
  // An SOA with serial 5, in print
  // ---------------------------------------------------------------------

  const NS: string := "ns1.example."
  const SOA_TEXT: string := "ns1.example. a. ( 5 1 1 1 1 )"
  const PLAIN_SOA: string := "ns1.example. a. 5 1 1 1 1"

  lemma NamesInPrint()
    ensures IsFqdnName(NS) && IsFqdnName("a.")
  {
  }

  lemma NumbersInPrint(last: string)
    ensures Join(["5"] + (["1"] + (["1"] + (["1"] + (["1"] + [last])))), ' ') == "5 1 1 1 1 " + last
  {
    JoinCons("1", [last]);
    JoinCons("1", ["1"] + [last]);
    JoinCons("1", ["1"] + (["1"] + [last]));
    JoinCons("1", ["1"] + (["1"] + (["1"] + [last])));
    JoinCons("5", ["1"] + (["1"] + (["1"] + (["1"] + [last]))));
    assert Join([last], ' ') == last;
    hide Join;
    assert "5" + " " + ("1" + " " + ("1" + " " + ("1" + " " + ("1" + " " + last)))) == "5 1 1 1 1 " + last;
  }

  lemma Numerals()
    ensures SoaNumbers(5, 1, 1, 1, 1) == ["5", "1", "1", "1", "1"]
  {
    assert Dec(5) == "5" && Dec(1) == "1";
  }

  lemma WordsInParens(ns: string, mbox: string, numbers: seq<string>)
    ensures SoaWords(ns, mbox, numbers, true) == [ns] + ([mbox] + (["("] + (numbers + [")"])))
  {
  }

  lemma FiveAnd(a: string, b: string, last: string)
    ensures [a, b, b, b, b] + [last] == [a] + ([b] + ([b] + ([b] + ([b] + [last]))))
  {
  }

  lemma SoaTextParts()
    ensures SOA_TEXT == NS + " " + ("a." + " " + ("(" + " " + ("5 1 1 1 1 " + ")")))
  {
  }

  lemma SoaTextIs()
    ensures SOA_TEXT == Join(SoaWords(NS, "a.", SoaNumbers(5, 1, 1, 1, 1), true), ' ')
  {
    Numerals();
    NumbersInPrint(")");
    SoaTextParts();
    var numbers := ["5", "1", "1", "1", "1"] + [")"];
    hide Join, SoaNumbers, SoaWords, Dec, SOA_TEXT, NS;
    FiveAnd("5", "1", ")");
    WordsInParens(NS, "a.", ["5", "1", "1", "1", "1"]);
    JoinCons("(", numbers);
    JoinCons("a.", ["("] + numbers);
    JoinCons(NS, ["a."] + (["("] + numbers));
  }

  lemma PlainSoaIs()
    ensures PLAIN_SOA == Join(SoaWords(NS, "a.", SoaNumbers(5, 1, 1, 1, 1), false), ' ')
  {
    Numerals();
    var numbers := ["5"] + (["1"] + (["1"] + (["1"] + ["1"])));
    assert SoaWords(NS, "a.", SoaNumbers(5, 1, 1, 1, 1), false) == [NS] + (["a."] + numbers);
    JoinCons("1", ["1"]);
    JoinCons("1", ["1"] + ["1"]);
    JoinCons("1", ["1"] + (["1"] + ["1"]));
    JoinCons("5", ["1"] + (["1"] + (["1"] + ["1"])));
    assert Join(["1"], ' ') == "1";
    hide Join, SoaNumbers, SoaWords, Dec;
    JoinCons("a.", numbers);
    JoinCons(NS, ["a."] + numbers);
    assert PLAIN_SOA == NS + " " + ("a." + " " + ("5" + " " + ("1" + " " + ("1" + " " + ("1" + " " + "1")))));
  }

  lemma SoaTextReads(ttl: uint32, origin: string, defaultTtl: Option<uint32>)
    ensures var line := RecordLine(' ', "@", ttl, "SOA", SOA_TEXT);
            var e := ReadLine(line, origin, defaultTtl);
            '\n' !in line && e.Resource? && e.rr.SoaRR? && e.rr.serial == 5
  {
    SoaTextIs();
    NamesInPrint();
    AtSoaLine(0, "");
    hide IsFqdnName, SOA_TEXT, Join, SoaNumbers, SoaWords, ReadLine, RecordLine, NS;
    SoaLineReads(' ', "@", ttl, NS, "a.", 5, 1, 1, 1, 1, true, origin, defaultTtl);
  }

  lemma PlainSoaReads(owner: string, ttl: uint32, origin: string)
    ensures var rr := ReadSoa(owner, ttl, PLAIN_SOA, origin); rr.Some? && rr.value.SoaRR? && rr.value.serial == 5
    ensures ';' !in PLAIN_SOA
  {
    PlainSoaIs();
    NamesInPrint();
    assert ';' !in PLAIN_SOA;
    hide IsFqdnName, PLAIN_SOA, Join, SoaNumbers, SoaWords, ReadSoa, NS;
    SoaReads(owner, ttl, NS, "a.", 5, 1, 1, 1, 1, false, origin);
  }

  // ---------------------------------------------------------------------
  // What follows once something builds
  // ---------------------------------------------------------------------

  lemma BrokenFixes(zone: string, soa: SoaData, c: uint32)
    requires '\n' !in zone && !CleanNames(soa)
    requires forall serial :: Accepted(zone, soa.(serial := serial))
    requires var e := BrokenEntry(NameContext(zone), soa); e.Resource? && e.rr.SoaRR? && e.rr.serial == c
    ensures FixesSerial(zone, soa, c)
  {
    OneLineHoldsNoSoa(zone);
    assert soa.(serial := soa.serial) == soa;
    forall serial ensures BuildsWith(zone, soa, serial, c) {
      assert Accepted(zone, soa.(serial := serial));
      BrokenIgnoresSerial(NameContext(zone), soa, serial);
      BrokenLineDecides(zone, soa.(serial := serial), []);
    }
    hide BuildZone, BrokenEntry, NameContext, HoldsSoa, HasSoa, SoaOf, CleanNames;
  }

  /** A zone name that is one, on one line. */
  predicate PlainZone(zone: string) {
    '\n' !in zone && IsName(Apex(zone))
  }

  lemma AcceptedFromBody(zone: string, soa: SoaData)
    requires PlainZone(zone)
    requires var s := Scan(Split(BuildBody(soa, []), '\n'), Apex(zone), Some(EffectiveTtl(soa)));
             s.ok && s.records != []
    ensures Accepted(zone, soa)
  {
    BuildTextHead(zone, soa, []);
    hide BuildText, BuildBody, ScanText, Scan, Split, IsName, EffectiveTtl, Apex, Fqdn;
  }

  // ---------------------------------------------------------------------
  // A line break in a name
  // ---------------------------------------------------------------------

  const RECORD: string := "foo 3600 IN TXT x"

  predicate BreaksLine(soa: SoaData) {
    soa.primaryNS == SOA_TEXT + "\n" + RECORD && soa.mbox == MBOX
  }

  lemma BrokenInTwo(soa: SoaData, a: string, b: string)
    requires '\n' !in a && b != "" && b[|b| - 1] != '.' && soa.primaryNS == a + "\n" + b
    ensures !CleanNames(soa)
    ensures SoaNames(soa) == a + "\n" + (b + (". " + DnsMbox(soa.mbox)))
    ensures FirstLine(SoaNames(soa)) == a
  {
    var ns := a + "\n" + b;
    assert ns[|a|] == '\n' && ns[|ns| - 1] == b[|b| - 1];
    assert Fqdn(ns) == ns + ".";
    hide DnsMbox, Fqdn, FirstLine;
    var mbox := DnsMbox(soa.mbox);
    assert ns + "." + (" " + mbox) == a + "\n" + (b + (". " + mbox));
    FirstLineIs(a, b + (". " + mbox));
  }

  lemma BreakParts(soa: SoaData)
    requires BreaksLine(soa)
    ensures '\n' !in SOA_TEXT && !CleanNames(soa) && '\n' in SoaNames(soa)
    ensures SoaNames(soa) == SOA_TEXT + "\n" + (RECORD + (". " + DnsMbox(soa.mbox)))
    ensures FirstLine(SoaNames(soa)) == SOA_TEXT
  {
    assert RECORD[|RECORD| - 1] == 'x' && '\n' !in SOA_TEXT;
    hide SoaNames, DnsMbox, FirstLine, CleanNames, SOA_TEXT, RECORD, MBOX;
    BrokenInTwo(soa, SOA_TEXT, RECORD);
    NamesKeep(soa, '\n');
    assert '\n' in soa.primaryNS by { assert (SOA_TEXT + "\n" + RECORD)[|SOA_TEXT|] == '\n'; }
  }

  lemma BreakEntry(soa: SoaData, origin: string)
    requires BreaksLine(soa)
    ensures var e := BrokenEntry(origin, soa); e.Resource? && e.rr.SoaRR? && e.rr.serial == 5
    ensures BrokenEntry(origin, soa) == ReadLine(BrokenSoaLine(soa), origin, Some(EffectiveTtl(soa)))
  {
    BreakParts(soa);
    hide SoaNames, FirstLine, SOA_TEXT, ReadLine, RecordLine, EffectiveTtl, BuildSoaLine;
    SoaTextReads(EffectiveTtl(soa), origin, Some(EffectiveTtl(soa)));
  }

  // The rest of what Build prints for the names, and the numbers, is one TXT record.

  lemma HourIs()
    ensures Dec(3600) == "3600"
  {
    assert Dec(3) == "3" && Dec(36) == "36" && Dec(360) == "360";
  }

  lemma RecordLineIs(owner: string, ttl: string, rtype: string, data: string, more: string)
    ensures Cell(owner, ' ', Cell(ttl, ' ', Cell("IN", ' ', Cell(rtype, ' ', data + more))))
         == owner + " " + (ttl + " " + ("IN" + " " + (rtype + " " + data))) + more
  {
    assert Cell(rtype, ' ', data + more) == rtype + " " + data + more;
    assert Cell("IN", ' ', rtype + " " + data + more) == "IN" + " " + (rtype + " " + data) + more;
  }

  lemma RecordIs(data: string)
    ensures RECORD + data == RecordLine(' ', "foo", 3600, "TXT", "x" + data)
  {
    HourIs();
    assert "foo" + " " + ("3600" + " " + ("IN" + " " + ("TXT" + " " + "x"))) == RECORD;
    hide Dec, RECORD;
    RecordLineIs("foo", "3600", "TXT", "x", data);
  }

  lemma RecordParts()
    ensures IsName("foo") && IsType("TXT") && !IsPrivate("TXT") && IsBlank(' ')
  {
  }

  lemma RecordDataIsData(mbox: string, tail: string)
    requires '\n' !in mbox && IsData(tail)
    ensures IsData("x" + (". " + mbox + (" " + tail)))
  {
    var d := "x" + (". " + mbox + (" " + tail));
    assert d[0] == 'x' && d[|d| - 1] == tail[|tail| - 1];
  }

  lemma AnyRecordReads(mbox: string, tail: string, origin: string, defaultTtl: Option<uint32>)
    requires '\n' !in mbox && IsData(tail)
    ensures var line := RECORD + (". " + mbox + (" " + tail));
            '\n' !in line && ReadLine(line, origin, defaultTtl).Resource?
  {
    var data := ". " + mbox + (" " + tail);
    hide RECORD, IsData, RecordLine, ReadLine, IsName, IsType, IsPrivate;
    RecordDataIsData(mbox, tail);
    RecordIs(data);
    RecordParts();
    DataLineReads(' ', "foo", 3600, "TXT", "x" + data, origin, defaultTtl);
  }

  lemma BreakMboxLine(soa: SoaData)
    requires soa.mbox == MBOX
    ensures '\n' !in DnsMbox(soa.mbox)
  {
    MboxIsClean();
    hide DnsMbox, MBOX;
    NamesKeep(soa, '\n');
  }

  lemma RecordReads(soa: SoaData, origin: string, defaultTtl: Option<uint32>)
    requires BreaksLine(soa)
    ensures var line := RECORD + (". " + DnsMbox(soa.mbox) + (" " + SoaTail(soa)));
            '\n' !in line && ReadLine(line, origin, defaultTtl).Resource?
  {
    hide *;
    assert soa.mbox == MBOX by { BreakMbox(soa); }
    BreakMboxLine(soa);
    SoaTailWords(soa);
    AnyRecordReads(DnsMbox(soa.mbox), SoaTail(soa), origin, defaultTtl);
  }

  lemma BreakMbox(soa: SoaData)
    requires BreaksLine(soa)
    ensures soa.mbox == MBOX
  {
  }

  lemma BreakSoaLine(soa: SoaData)
    requires BreaksLine(soa)
    ensures '\n' !in BrokenSoaLine(soa)
    ensures BuildSoaLine(soa)
         == BrokenSoaLine(soa) + "\n" + (RECORD + (". " + DnsMbox(soa.mbox) + (" " + SoaTail(soa))))
  {
    BreakParts(soa);
    BuildSoaData(soa);
    SoaLineOnOneLine(EffectiveTtl(soa), SOA_TEXT);
    hide SoaNames, SoaTail, DnsMbox, RecordLine, BuildSoaLine, SOA_TEXT, RECORD, EffectiveTtl, FirstLine;
    var names, tail := RECORD + (". " + DnsMbox(soa.mbox)), " " + SoaTail(soa);
    var rest := RECORD + (". " + DnsMbox(soa.mbox) + tail);
    Regroup(SOA_TEXT, "\n", names, tail);
    Regroup(RECORD, ". " + DnsMbox(soa.mbox), tail, "");
    assert names + tail == rest;
    RecordLineGrows(EffectiveTtl(soa), SOA_TEXT, "\n" + rest);
    Regroup(BrokenSoaLine(soa), "\n", rest, "");
  }

  lemma TwoLinesScan(first: string, second: string, origin: string, defaultTtl: Option<uint32>)
    requires '\n' !in first && ReadLine(first, origin, defaultTtl).Resource?
    requires '\n' !in second && ReadLine(second, origin, defaultTtl).Resource?
    ensures var s := Scan(Split(first + "\n" + second + "\n" + "", '\n'), origin, defaultTtl); s.ok && s.records != []
  {
    hide ReadLine, Scan, Split;
    assert first + "\n" + second + "\n" + "" == first + "\n" + (second + "\n");
    ResourceLineScan(first, ReadLine(first, origin, defaultTtl).rr, second + "\n", origin, defaultTtl);
    OneLineScan(second, ReadLine(second, origin, defaultTtl).rr, origin, defaultTtl);
  }

  lemma BodyIs(soa: SoaData)
    ensures BuildBody(soa, []) == BuildSoaLine(soa) + "\n" + ""
  {
    assert BuildLines([], EffectiveTtl(soa)) == "";
    hide BuildSoaLine;
  }

  lemma BreakAccepted(zone: string, soa: SoaData)
    requires PlainZone(zone) && BreaksLine(soa)
    ensures Accepted(zone, soa)
  {
    hide *;
    var o, ttl := Apex(zone), EffectiveTtl(soa);
    var line, rest := BrokenSoaLine(soa), RECORD + (". " + DnsMbox(soa.mbox) + (" " + SoaTail(soa)));
    BreakEntry(soa, o);
    BreakSoaLine(soa);
    BodyIs(soa);
    RecordReads(soa, o, Some(ttl));
    TwoLinesScan(line, rest, o, Some(ttl));
    AcceptedFromBody(zone, soa);
  }

  lemma PlainZoneContext(zone: string)
    requires PlainZone(zone)
    ensures '\n' !in zone && NameContext(zone) == Apex(zone)
  {
    OneLineHoldsNoSoa(zone);
    hide NameContext, IsName, Apex;
  }

  lemma BreakIgnoresSerial(soa: SoaData, serial: uint32)
    requires BreaksLine(soa)
    ensures BreaksLine(soa.(serial := serial))
  {
    hide SOA_TEXT, RECORD, MBOX;
  }

  /** A primary NS with a line break is accepted for every zone and fixes the serial. */
  lemma LineBreakFixesSerial(zone: string, soa: SoaData)
    requires PlainZone(zone) && BreaksLine(soa)
    ensures FixesSerial(zone, soa, 5)
  {
    hide *;
    PlainZoneContext(zone);
    BreakParts(soa);
    BreakEntry(soa, NameContext(zone));
    forall serial ensures Accepted(zone, soa.(serial := serial)) {
      BreakIgnoresSerial(soa, serial);
      BreakAccepted(zone, soa.(serial := serial));
    }
    BrokenFixes(zone, soa, 5);
  }

  // ---------------------------------------------------------------------
  // A comment sign in a name
  // ---------------------------------------------------------------------

  predicate CommentsOut(soa: SoaData) {
    soa.primaryNS == PLAIN_SOA + " ;" && soa.mbox == MBOX
  }

  lemma {:induction false} UncommentAt(a: string, b: string)
    requires ';' !in a
    ensures Uncomment(a + (";" + b)) == a
  {
    if a != "" {
      assert (a + (";" + b))[1..] == a[1..] + (";" + b);
      UncommentAt(a[1..], b);
    }
  }

  lemma CommentedNames(soa: SoaData, a: string)
    requires soa.primaryNS == a + " ;" && a != "" && !IsBlank(a[0]) && '\n' !in a && '\n' !in DnsMbox(soa.mbox)
    ensures SoaNames(soa) == a + " " + (";" + (". " + DnsMbox(soa.mbox)))
    ensures !CleanNames(soa) && '\n' !in SoaNames(soa) && ';' in SoaNames(soa)
    ensures SkipBlanks(SoaNames(soa)) == SoaNames(soa) && SoaNames(soa)[0] == a[0]
  {
    var ns := a + " ;";
    assert ns[|ns| - 1] == ';' && Fqdn(ns) == ns + ".";
    hide DnsMbox, Fqdn;
    var mbox, names := DnsMbox(soa.mbox), SoaNames(soa);
    assert ns + "." + (" " + mbox) == a + " " + (";" + (". " + mbox));
    assert names[|a| + 1] == ';' && names[0] == a[0];
  }

  lemma PlainSoaStart()
    ensures PLAIN_SOA != "" && PLAIN_SOA[0] == 'n' && '\n' !in PLAIN_SOA
  {
  }

  lemma CommentNames(soa: SoaData)
    requires CommentsOut(soa)
    ensures SoaNames(soa) == PLAIN_SOA + " " + (";" + (". " + DnsMbox(soa.mbox)))
    ensures !CleanNames(soa) && '\n' !in SoaNames(soa) && ';' in SoaNames(soa)
    ensures SkipBlanks(SoaNames(soa)) == SoaNames(soa) && SoaNames(soa)[0] == 'n'
  {
    PlainSoaStart();
    hide DnsMbox, PLAIN_SOA, MBOX, SoaNames, CleanNames, SkipBlanks;
    BreakMboxLine(soa);
    CommentedNames(soa, PLAIN_SOA);
  }

  lemma CommentIsOneLine(soa: SoaData)
    requires CommentsOut(soa)
    ensures '\n' !in soa.primaryNS && '\n' !in soa.mbox
  {
    PlainSoaStart();
    MboxIsClean();
    hide PLAIN_SOA, MBOX;
  }

  lemma CommentReads(owner: string, ttl: uint32, rest: string, origin: string)
    ensures var rr := ReadSoa(owner, ttl, PLAIN_SOA + " " + (";" + rest), origin);
            rr.Some? && rr.value.SoaRR? && rr.value.serial == 5
  {
    PlainSoaReads(owner, ttl, origin);
    hide PLAIN_SOA;
    assert ';' !in PLAIN_SOA + " ";
    UncommentAt(PLAIN_SOA + " ", rest);
    UncommentKeeps(PLAIN_SOA);
    WordsConcat(PLAIN_SOA, "");
    assert PLAIN_SOA + (" " + "") == PLAIN_SOA + " ";
    assert Words("") == [];
    SameWordsRead(owner, ttl, PLAIN_SOA + " " + (";" + rest), PLAIN_SOA, origin);
  }

  lemma SameWordsRead(owner: string, ttl: uint32, a: string, b: string, origin: string)
    requires Words(Uncomment(a)) == Words(Uncomment(b))
    ensures ReadSoa(owner, ttl, a, origin) == ReadSoa(owner, ttl, b, origin)
  {
    hide Words, Uncomment, NoParens, IsName;
  }

  lemma CommentEntry(soa: SoaData, origin: string)
    requires CommentsOut(soa)
    ensures var e := BrokenEntry(origin, soa); e.Resource? && e.rr.SoaRR? && e.rr.serial == 5
  {
    CommentNames(soa);
    hide SoaNames, ReadSoa, BrokenEntry, PLAIN_SOA, MBOX, DnsMbox, SkipBlanks, CleanNames, CommentsOut;
    CommentHidesNumbers(soa, origin);
    CommentReads(origin, EffectiveTtl(soa), ". " + DnsMbox(soa.mbox), origin);
  }

  lemma CommentAccepted(zone: string, soa: SoaData)
    requires PlainZone(zone) && CommentsOut(soa)
    ensures Accepted(zone, soa)
  {
    var o, ttl, line := Apex(zone), EffectiveTtl(soa), BuildSoaLine(soa);
    CommentNames(soa);
    CommentEntry(soa, o);
    PrintedOnOneLine(soa);
    BodyIs(soa);
    hide SoaNames, BuildSoaLine, ReadLine, Scan, Split, BuildBody, CommentsOut, CleanNames, IsName, EffectiveTtl, Apex;
    assert line + "\n" + "" == line + "\n";
    OneLineScan(line, ReadLine(line, o, Some(ttl)).rr, o, Some(ttl));
    AcceptedFromBody(zone, soa);
  }

  lemma CommentIgnoresSerial(soa: SoaData, serial: uint32)
    requires CommentsOut(soa)
    ensures CommentsOut(soa.(serial := serial))
  {
    hide PLAIN_SOA, MBOX;
  }

  /** A primary NS on one line with a comment sign is accepted for every zone and fixes the
      serial. */
  lemma CommentFixesSerial(zone: string, soa: SoaData)
    requires PlainZone(zone) && CommentsOut(soa)
    ensures FixesSerial(zone, soa, 5) && '\n' !in soa.primaryNS && '\n' !in soa.mbox
  {
    hide *;
    CommentIsOneLine(soa);
    PlainZoneContext(zone);
    CommentNames(soa);
    CommentEntry(soa, NameContext(zone));
    forall serial ensures Accepted(zone, soa.(serial := serial)) {
      CommentIgnoresSerial(soa, serial);
      CommentAccepted(zone, soa.(serial := serial));
    }
    BrokenFixes(zone, soa, 5);
  }

  // ---------------------------------------------------------------------
  // A line break in the zone name
  // ---------------------------------------------------------------------

  const SOA_LINE: string := "@ 60 IN SOA " + SOA_TEXT
  const X_NAME: string := "x."
  const NS_LINE: string := "y 60 IN NS z."
  const NAME_WITH_SOA: string := X_NAME + "\n" + SOA_LINE + "\ny 60 IN NS z"

  /** Names that build on a line of their own. */
  predicate GoodNames(soa: SoaData) {
    CleanNames(soa) && HoldsName(Fqdn(soa.primaryNS)) && HoldsName(DnsMbox(soa.mbox))
  }

  lemma SixtyIs()
    ensures Dec(60) == "60"
  {
    assert Dec(6) == "6";
  }

  lemma SoaLineIs()
    ensures SOA_LINE == RecordLine(' ', "@", 60, "SOA", SOA_TEXT)
  {
    SixtyIs();
    AnySoaLineIs(SOA_TEXT);
    hide Dec, SOA_TEXT, RecordLine;
  }

  lemma AnySoaLineIs(data: string)
    ensures RecordLine(' ', "@", 60, "SOA", data) == "@ 60 IN SOA " + data
  {
    SixtyIs();
    hide Dec;
    assert RecordLine(' ', "@", 60, "SOA", data) == "@" + " " + ("60" + " " + ("IN" + " " + ("SOA" + " " + data)));
    assert "@" + " " + ("60" + " " + ("IN" + " " + "SOA ")) == "@ 60 IN SOA ";
  }

  lemma NsLineReads(origin: string, defaultTtl: Option<uint32>)
    ensures '\n' !in NS_LINE
    ensures ReadLine(NS_LINE, origin, defaultTtl) == Resource(DataRR(Resolve("y", origin), 60, "NS", "z."))
  {
    SixtyIs();
    NsParts();
    assert NS_LINE == RecordLine(' ', "y", 60, "NS", "z.");
    hide Dec, ReadLine, RecordLine, IsName, IsType, IsDataOf, NS_LINE;
    DataLineReads(' ', "y", 60, "NS", "z.", origin, defaultTtl);
  }

  lemma NsParts()
    ensures IsName("y") && IsType("NS") && !IsPrivate("NS") && IsDataOf("NS", "z.") && IsBlank(' ')
  {
  }

  lemma OneLineScanned(line: string, origin: string, defaultTtl: Option<uint32>)
    requires '\n' !in line && ReadLine(line, origin, defaultTtl).Resource?
    ensures Scan(Split(line, '\n'), origin, defaultTtl) == Scanned([ReadLine(line, origin, defaultTtl).rr], true)
  {
    SplitNone(line, '\n');
    ScanOnce([line], origin, defaultTtl);
    assert [line][1..] == [];
    ScanNothing(origin, defaultTtl);
    hide ReadLine, Scan, Split;
  }

  lemma NameTextIs()
    ensures "$ORIGIN " + Fqdn(NAME_WITH_SOA) == "$ORIGIN " + X_NAME + "\n" + (SOA_LINE + "\n" + NS_LINE)
    ensures IsFqdnName(SkipBlanks(X_NAME))
  {
    var n := NAME_WITH_SOA;
    assert n[|n| - 1] == 'z';
    assert SkipBlanks("x.") == "x.";
    assert NS_LINE == "y 60 IN NS z" + ".";
    hide SOA_LINE, X_NAME;
    assert NAME_WITH_SOA + "." == X_NAME + "\n" + (SOA_LINE + "\n" + NS_LINE);
  }

  lemma ThreeLinesScan(origin: string, name: string, second: string, third: string)
    requires IsFqdnName(SkipBlanks(name)) && '\n' !in second && '\n' !in third
    requires ReadLine(second, SkipBlanks(name), None).Resource? && ReadLine(third, SkipBlanks(name), None).Resource?
    ensures Scan(Split("$ORIGIN " + name + "\n" + (second + "\n" + third), '\n'), origin, None)
         == Scanned([ReadLine(second, SkipBlanks(name), None).rr, ReadLine(third, SkipBlanks(name), None).rr], true)
  {
    hide ReadLine, Scan, Split, IsFqdnName, SkipBlanks;
    var x := SkipBlanks(name);
    OriginLineScan(name, second + "\n" + third, origin, None);
    ResourceLineScan(second, ReadLine(second, x, None).rr, third, x, None);
    OneLineScanned(third, x, None);
  }

  lemma NameScanIs()
    ensures var s := NameScan(NAME_WITH_SOA);
            s.ok && |s.records| == 2 && s.records[0].SoaRR? && s.records[0].serial == 5
  {
    hide *;
    var x := SkipBlanks(X_NAME);
    NameTextIs();
    SoaLineIs();
    SoaTextReads(60, x, None);
    NsLineReads(x, None);
    ThreeLinesScan(Fqdn(NAME_WITH_SOA), X_NAME, SOA_LINE, NS_LINE);
    NameScanOf(NAME_WITH_SOA);
  }

  lemma NameScanOf(origin: string)
    ensures NameScan(origin) == Scan(Split("$ORIGIN " + Fqdn(origin), '\n'), Fqdn(origin), None)
  {
  }

  lemma NameHoldsSoa()
    ensures NameScan(NAME_WITH_SOA).ok && HoldsSoa(NAME_WITH_SOA)
    ensures var records := NameScan(NAME_WITH_SOA).records;
            SoaIndex(records) < |records| && records[SoaIndex(records)].serial == 5
  {
    NameScanIs();
    hide NameScan, NAME_WITH_SOA;
  }

  lemma GoodIgnoresSerial(soa: SoaData, serial: uint32)
    requires GoodNames(soa)
    ensures GoodNames(soa.(serial := serial))
  {
    hide HoldsName, Fqdn, DnsMbox;
  }

  lemma GoodBodyAccepted(zone: string, soa: SoaData)
    requires NameScan(zone).ok && GoodNames(soa)
    ensures Accepted(zone, soa)
  {
    BuildScan(zone, soa, []);
    CleanBody(NameContext(zone), soa);
    hide BuildText, ScanText, Scan, Split, NameScan, NameContext, HoldsName, BuildBody, Fqdn, DnsMbox, CleanNames;
  }

  /** A zone name that spells out an SOA is accepted with any good names and fixes the serial. */
  lemma ZoneNameFixesSerial(soa: SoaData)
    requires GoodNames(soa)
    ensures FixesSerial(NAME_WITH_SOA, soa, 5)
  {
    var zone := NAME_WITH_SOA;
    NameHoldsSoa();
    hide NAME_WITH_SOA, BuildZone, GoodNames, NameScan, HoldsSoa, Fqdn, DnsMbox;
    GoodBodyAccepted(zone, soa);
    forall serial ensures BuildsWith(zone, soa, serial, 5) {
      GoodIgnoresSerial(soa, serial);
      GoodBodyAccepted(zone, soa.(serial := serial));
      NameSoaDecides(zone, soa.(serial := serial), []);
    }
  }

  const HARMLESS_NAME: string := "x.\n$ORIGIN y"

  lemma HarmlessText()
    ensures "$ORIGIN " + Fqdn(HARMLESS_NAME) == "$ORIGIN x.\n" + "$ORIGIN y."
    ensures IsFqdnName("x.") && SkipBlanks("x.") == "x." && IsFqdnName("y.") && SkipBlanks("y.") == "y."
    ensures '\n' in HARMLESS_NAME && '\n' !in "$ORIGIN y."
  {
    var n := HARMLESS_NAME;
    assert n[2] == '\n' && n[|n| - 1] == 'y';
    assert "x.\n$ORIGIN y" + "." == "x.\n" + "$ORIGIN y.";
  }

  lemma HarmlessScan()
    ensures NameScan(HARMLESS_NAME) == Scanned([], true)
  {
    var o, second := Fqdn(HARMLESS_NAME), "$ORIGIN y.";
    HarmlessText();
    hide HARMLESS_NAME, ReadLine, Scan, Split, Fqdn, IsFqdnName, SkipBlanks;
    assert "$ORIGIN " + "x." + "\n" + second == "$ORIGIN x.\n" + second;
    OriginLineScan("x.", second, o, None);
    SplitNone(second, '\n');
    assert second == "$ORIGIN " + "y.";
    OriginLineReads("y.", "x.", None);
    ScanOnce([second], "x.", None);
    assert [second][1..] == [];
    ScanNothing("y.", None);
  }

  /** A line break in a zone name is not what does it: this one is accepted, and every serial
      is carried. */
  lemma HarmlessNameCarries(soa: SoaData)
    requires GoodNames(soa)
    ensures '\n' in HARMLESS_NAME && Accepted(HARMLESS_NAME, soa)
    ensures forall serial :: Carries(HARMLESS_NAME, soa, serial)
  {
    HarmlessText();
    HarmlessScan();
    assert !HoldsSoa(HARMLESS_NAME);
    hide HARMLESS_NAME, BuildZone, HoldsName, CleanNames, NameScan, HoldsSoa, Fqdn, DnsMbox, Accepted, Carries;
    GoodBodyAccepted(HARMLESS_NAME, soa);
    SerialIsCarried(HARMLESS_NAME, soa);
  }

  // ---------------------------------------------------------------------
  // A record added under such a zone name
  // ---------------------------------------------------------------------

  const RELATIVE_NAME: string := "x\ny 60 IN NS z"

  lemma RelativeText()
    ensures "$ORIGIN " + Fqdn(RELATIVE_NAME) == "$ORIGIN x" + "\n" + NS_LINE
    ensures '\n' in Fqdn(RELATIVE_NAME)
  {
    var n := RELATIVE_NAME;
    assert n[1] == '\n' && n[|n| - 1] == 'z';
    assert Fqdn(n) == n + "." && (n + ".")[1] == '\n';
    assert NS_LINE == "y 60 IN NS z" + ".";
    hide RELATIVE_NAME, NS_LINE;
  }

  lemma RelativeOrigin(origin: string)
    requires origin != "."
    ensures '\n' !in "$ORIGIN x" && ReadLine("$ORIGIN x", origin, None) == Origin("x." + origin)
  {
    OriginLineTokens("x");
    assert "$ORIGIN " + "x" == "$ORIGIN x" && SkipBlanks("x") == "x" && TrimBlanksRight("x") == "x" && IsName("x");
    assert "x" + "." + origin == "x." + origin;
    hide NextToken;
  }

  lemma BadText()
    ensures ToUpper(TrimSpace("SOA")) == "SOA" && TrimSpace("x") == "x"
  {
    assert TrimSpace("SOA") == "SOA" && TrimSpace("x") == "x" by { hide ToUpper; }
    hide TrimSpace;
    assert ToUpper("SOA") == "SOA";
  }

  lemma BadWords()
    ensures IsType("SOA") && IsName("@") && IsDataOf("SOA", "x") && IsBlank(' ')
  {
  }

  lemma BadSoa(owner: string, origin: string)
    ensures ReadSoa(owner, 60, "x", origin).None?
  {
    assert Uncomment("x") == "x";
    assert Words("x") == ["x"];
    assert NoParens(["x"]) == ["x"];
    hide Words, NoParens, Uncomment, IsName;
  }

  lemma BadLineIs()
    ensures NormalizeLine("@", 60, "SOA", "x") == RecordLine(' ', "@", 60, "SOA", "x")
  {
    BadText();
    hide RecordLine, TrimSpace, ToUpper;
  }

  /** What normalising SOA data of one word prints does not parse. */
  lemma BadLineReads(origin: string, defaultTtl: Option<uint32>)
    ensures var line := NormalizeLine("@", 60, "SOA", "x");
            '\n' !in line && ReadLine(line, origin, defaultTtl).Malformed?
  {
    hide *;
    BadLineIs();
    BadWords();
    BadSoa(Resolve("@", origin), origin);
    DataOfIsData("SOA", "x");
    RecordLineShape(' ', "@", 60, "SOA", "x");
    LineReads(' ', "@", 60, "SOA", "x", origin, defaultTtl);
  }

  lemma DataOfIsData(rtype: string, data: string)
    requires IsDataOf(rtype, data)
    ensures IsData(data)
  {
    hide IsData;
  }

  lemma RelativeScan(bad: string, origin: string)
    requires origin != "." && '\n' !in bad && forall o, ttl :: ReadLine(bad, o, ttl).Malformed?
    ensures var text := "$ORIGIN x" + "\n" + (NS_LINE + "\n" + ("$TTL " + Dec(3600) + "\n" + (bad + "\n")));
            Scan(Split(text, '\n'), origin, None)
            == Scanned([DataRR(Resolve("y", "x." + origin), 60, "NS", "z.")], false)
  {
    hide ReadLine, Scan, Split, Dec, NS_LINE;
    var apex, rr := "x." + origin, DataRR(Resolve("y", "x." + origin), 60, "NS", "z.");
    var ttlLine := "$TTL " + Dec(3600) + "\n" + (bad + "\n");
    RelativeOrigin(origin);
    NsLineReads(apex, None);
    OtherOriginScan("$ORIGIN x", NS_LINE + "\n" + ttlLine, origin, apex);
    ResourceLineScan(NS_LINE, rr, ttlLine, apex, None);
    TtlLineScan(3600, bad + "\n", apex, None);
    assert bad + "\n" + "" == bad + "\n";
    MalformedLineScan(bad, "", apex, Some(3600));
  }

  lemma OtherOriginScan(line: string, rest: string, origin: string, apex: string)
    requires '\n' !in line && ReadLine(line, origin, None) == Origin(apex)
    ensures Scan(Split(line + "\n" + rest, '\n'), origin, None) == Scan(Split(rest, '\n'), apex, None)
  {
    SplitFirst(line, '\n', rest);
    ScanOnce(Split(line + "\n" + rest, '\n'), origin, None);
    assert ([line] + Split(rest, '\n'))[1..] == Split(rest, '\n');
    hide Scan, Split, ReadLine;
  }

  lemma ResolvedBroken(origin: string)
    requires '\n' in origin
    ensures '\n' in Resolve("y", "x." + origin) && !IsName(Resolve("y", "x." + origin))
  {
    var o := Resolve("y", "x." + origin);
    assert o == "y.x." + origin;
    var k :| 0 <= k < |origin| && origin[k] == '\n';
    assert o[k + 4] == '\n';
  }

  lemma NewRRScan(line: string, origin: string)
    ensures var o := Fqdn(origin);
            var text := "$ORIGIN " + o + "\n" + ("$TTL " + Dec(3600) + "\n" + (line + "\n"));
            var s := Scan(Split(text, '\n'), o, None);
            |s.records| == 1 ==> NewRR(line, origin) == Ok(s.records[0])
  {
    hide Scan, Split, Dec, Fqdn;
  }

  lemma NormalizedFrom(origin: string, rr: RR)
    requires NewRR(NormalizeLine("@", 60, "SOA", "x"), origin) == Ok(rr) && rr.DataRR?
    ensures var r := NormalizeRecord(origin, "@", 60, "SOA", "x");
            r.Ok? && r.value.name == rr.owner && (UnknownTypes.Storable(r.value) ==> IsName(rr.owner))
  {
    hide NewRR, NormalizeLine, IsName, IsType, IsData;
  }

  lemma RelativeEdit(bad: string)
    ensures "$ORIGIN " + Fqdn(RELATIVE_NAME) + "\n" + ("$TTL " + Dec(3600) + "\n" + (bad + "\n"))
         == "$ORIGIN x" + "\n" + (NS_LINE + "\n" + ("$TTL " + Dec(3600) + "\n" + (bad + "\n")))
  {
    RelativeText();
    hide RELATIVE_NAME, Dec, NS_LINE, Fqdn;
    Regroup("$ORIGIN x", "\n", NS_LINE, "\n" + ("$TTL " + Dec(3600) + "\n" + (bad + "\n")));
    Regroup("$ORIGIN x" + "\n" + NS_LINE, "\n", "$TTL " + Dec(3600) + "\n" + (bad + "\n"), "");
  }

  lemma BrokenIsNoRoot(origin: string)
    requires '\n' in origin
    ensures origin != "."
  {
  }

  /** Under a zone name with a line break a record can be accepted that is the zone name's own,
      with the line break in its owner. */
  lemma BrokenNameStoresBroken()
    ensures var r := NormalizeRecord(RELATIVE_NAME, "@", 60, "SOA", "x");
            r.Ok? && '\n' in r.value.name && !UnknownTypes.Storable(r.value)
  {
    hide *;
    var bad, o := NormalizeLine("@", 60, "SOA", "x"), Fqdn(RELATIVE_NAME);
    RelativeText();
    RelativeEdit(bad);
    BrokenIsNoRoot(o);
    BadLineReads(o, None);
    forall origin, ttl ensures ReadLine(bad, origin, ttl).Malformed? {
      BadLineReads(origin, ttl);
    }
    RelativeScan(bad, o);
    ResolvedBroken(o);
    NewRRScan(bad, RELATIVE_NAME);
    NormalizedFrom(RELATIVE_NAME, DataRR(Resolve("y", "x." + o), 60, "NS", "z."));
  }
}
