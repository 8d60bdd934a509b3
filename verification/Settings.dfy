/**
 What the check of the settings and creation handlers (internal/web/zones.go) accepts: the
 settings alone must build. Accepted settings keep the zone's serial exactly when the zone
 name's own lines hold no SOA and neither other name holds a line break or a comment sign.
 */
module Settings {
  import opened Text
  import opened Serial
  import opened ZoneText
  import opened ZoneLaws

  /** zone.Build(name, settings, nil) succeeds. */
  predicate Accepted(origin: string, soa: SoaData) {
    BuildZone(origin, soa, []).Ok?
  }

  /** Neither name of the SOA breaks its line or comments out what follows. */
  predicate CleanNames(soa: SoaData) {
    && '\n' !in soa.primaryNS && '\n' !in soa.mbox
    && ';' !in soa.primaryNS && ';' !in soa.mbox
  }

  predicate SafeSettings(origin: string, soa: SoaData) {
    Accepted(origin, soa) && '\n' !in origin && CleanNames(soa)
  }

  // ---------------------------------------------------------------------
  // Safe settings
  // ---------------------------------------------------------------------

  lemma {:induction false} MboxKeeps(s: string, c: char)
    requires c != '@' && c != '.'
    ensures c in ReplaceFirstAt(s) <==> c in s
  {
    if s != "" {
      assert s == [s[0]] + s[1..];
      if s[0] != '@' { MboxKeeps(s[1..], c); }
    }
  }

  lemma NamesKeep(soa: SoaData, c: char)
    requires c != '@' && c != '.' && c != ' '
    ensures c in Fqdn(soa.primaryNS) <==> c in soa.primaryNS
    ensures c in DnsMbox(soa.mbox) <==> c in soa.mbox
    ensures c in SoaNames(soa) <==> c in soa.primaryNS || c in soa.mbox
  {
    MboxKeeps(soa.mbox, c);
    hide ReplaceFirstAt;
  }

  lemma MalformedLineScan(line: string, rest: string, origin: string, defaultTtl: Option<uint32>)
    requires '\n' !in line && ReadLine(line, origin, defaultTtl).Malformed?
    ensures Scan(Split(line + "\n" + rest, '\n'), origin, defaultTtl) == Scanned([], false)
  {
    SplitFirst(line, '\n', rest);
    ScanOnce(Split(line + "\n" + rest, '\n'), origin, defaultTtl);
  }

  /** What Build prints after the $TTL line. */
  function BuildBody(soa: SoaData, recs: seq<Record>): string {
    BuildSoaLine(soa) + "\n" + BuildLines(recs, EffectiveTtl(soa))
  }

  /** What the parser makes of a built text, up to its SOA line, for a zone name on one line. */
  lemma BuildTextHead(origin: string, soa: SoaData, recs: seq<Record>)
    requires '\n' !in origin
    ensures ScanText(BuildText(origin, soa, recs), Fqdn(origin))
         == if IsName(Apex(origin)) then Scan(Split(BuildBody(soa, recs), '\n'), Apex(origin), Some(EffectiveTtl(soa)))
            else Scanned([], false)
  {
    var o, ttl, body := Fqdn(origin), EffectiveTtl(soa), BuildBody(soa, recs);
    FqdnOneLine(origin);
    AnyOriginScan(o, "$TTL " + Dec(ttl) + "\n" + body, o, None);
    TtlLineScan(ttl, body, Apex(origin), None);
    hide BuildSoaLine, BuildLines, Scan, Split, Dec, EffectiveTtl, Fqdn, IsName;
  }

  lemma GoodIsClean(origin: string, soa: SoaData)
    requires GoodSettings(origin, soa)
    ensures '\n' !in origin && CleanNames(soa)
  {
    NameIsPlain(Apex(origin));
    SkipBlanksHold(Fqdn(origin), '\n');
    NameInHolds(Fqdn(soa.primaryNS), '.');
    NameInHolds(DnsMbox(soa.mbox), '.');
    NamesKeep(soa, '\n');
    NamesKeep(soa, ';');
    hide HoldsName, NameIn, IsName, DnsMbox, SkipBlanks;
  }

  /** Settings are safe exactly when the zone name is one and each text holds one name. */
  lemma SafeExactly(origin: string, soa: SoaData)
    ensures SafeSettings(origin, soa) <==> GoodSettings(origin, soa)
  {
    if GoodSettings(origin, soa) {
      BuildParses(origin, soa, []);
      GoodIsClean(origin, soa);
      hide BuildZone, CleanNames, RequestedZone;
    } else if SafeSettings(origin, soa) {
      NamesKeep(soa, '\n');
      NamesKeep(soa, ';');
      hide HoldsName, BuildSoaLine, ReadLine, Scan, Split, BuildText, RequestedSoa, IsName, Apex, Fqdn, DnsMbox,
           BuildLines;
      BuildTextHead(origin, soa, []);
      BuildSoaLineExactly(soa, Apex(origin), Some(EffectiveTtl(soa)));
      if IsName(Apex(origin)) {
        MalformedLineScan(BuildSoaLine(soa), BuildLines([], EffectiveTtl(soa)), Apex(origin), Some(EffectiveTtl(soa)));
      }
    }
  }

  /** Only the names matter: the numbers and what is done to them do not. */
  lemma SafeIgnoresNumbers(origin: string, a: SoaData, b: SoaData)
    requires SafeSettings(origin, a) && a.primaryNS == b.primaryNS && a.mbox == b.mbox
    ensures SafeSettings(origin, b)
  {
    SafeExactly(origin, a);
    SafeExactly(origin, b);
    hide SafeSettings, HoldsName, IsName;
  }

  // ---------------------------------------------------------------------
  // Any zone name
  // ---------------------------------------------------------------------

  /** The origin and default TTL in force after some lines. */
  function ContextAfter(lines: seq<string>, origin: string, defaultTtl: Option<uint32>): (string, Option<uint32>) {
    if lines == [] then (origin, defaultTtl)
    else
      var e := ReadLine(lines[0], origin, defaultTtl);
      ContextAfter(lines[1..], if e.Origin? then e.name else origin, if e.DefaultTtl? then Some(e.ttl) else defaultTtl)
  }

  lemma ContextOnce(lines: seq<string>, origin: string, defaultTtl: Option<uint32>)
    requires lines != []
    ensures var e := ReadLine(lines[0], origin, defaultTtl);
            ContextAfter(lines, origin, defaultTtl)
            == ContextAfter(lines[1..], if e.Origin? then e.name else origin,
                            if e.DefaultTtl? then Some(e.ttl) else defaultTtl)
  {
    hide ReadLine;
  }

  lemma NoContext(origin: string, defaultTtl: Option<uint32>)
    ensures ContextAfter([], origin, defaultTtl) == (origin, defaultTtl)
  {
  }

  lemma Reassociate(first: seq<RR>, x: seq<RR>, y: seq<RR>)
    ensures first + (x + y) == (first + x) + y && [] + y == y
  {
  }

  /** Lines after lines are read in the context the first leave, if those are well formed. */
  lemma {:induction false} ScanAppend(a: seq<string>, b: seq<string>, origin: string, defaultTtl: Option<uint32>)
    ensures var s, context := Scan(a, origin, defaultTtl), ContextAfter(a, origin, defaultTtl);
            var more := Scan(b, context.0, context.1);
            Scan(a + b, origin, defaultTtl) == if s.ok then Scanned(s.records + more.records, more.ok) else s
    decreases a, 1
  {
    hide *;
    if a == [] {
      assert a + b == b;
      ScanNothing(origin, defaultTtl);
      NoContext(origin, defaultTtl);
      Reassociate([], [], Scan(b, origin, defaultTtl).records);
    } else {
      ScanAppendOne(a, b, origin, defaultTtl);
    }
  }

  lemma {:induction false} ScanAppendOne(a: seq<string>, b: seq<string>, origin: string, defaultTtl: Option<uint32>)
    requires a != []
    ensures var s, context := Scan(a, origin, defaultTtl), ContextAfter(a, origin, defaultTtl);
            var more := Scan(b, context.0, context.1);
            Scan(a + b, origin, defaultTtl) == if s.ok then Scanned(s.records + more.records, more.ok) else s
    decreases a, 0
  {
    hide *;
    var e := ReadLine(a[0], origin, defaultTtl);
    var origin', ttl' := if e.Origin? then e.name else origin, if e.DefaultTtl? then Some(e.ttl) else defaultTtl;
    var all, tail := a + b, a[1..];
    assert all[0] == a[0] && all[1..] == tail + b;
    ContextOnce(a, origin, defaultTtl);
    ScanOnce(a, origin, defaultTtl);
    ScanOnce(all, origin, defaultTtl);
    ScanAppend(tail, b, origin', ttl');
    var context := ContextAfter(a, origin, defaultTtl);
    Reassociate(if e.Resource? then [e.rr] else [], Scan(tail, origin', ttl').records,
                Scan(b, context.0, context.1).records);
  }

  lemma {:induction false} SplitConcat(a: string, rest: string)
    ensures Split(a + "\n" + rest, '\n') == Split(a, '\n') + Split(rest, '\n')
    decreases |a|
  {
    hide Split;
    if '\n' in a {
      var before, after := CutAt(a, '\n');
      Regroup(before, "\n", after, "\n" + rest);
      assert a + "\n" + rest == before + "\n" + (after + "\n" + rest);
      SplitFirst(before, '\n', after);
      SplitFirst(before, '\n', after + "\n" + rest);
      SplitConcat(after, rest);
      Prepended(before, Split(after, '\n'), Split(rest, '\n'));
    } else {
      SplitNone(a, '\n');
      SplitFirst(a, '\n', rest);
    }
  }

  lemma Prepended(a: string, b: seq<string>, c: seq<string>)
    ensures [a] + (b + c) == [a] + b + c
  {
  }

  /** The lines that a zone name makes of "$ORIGIN " and itself, what they read as, and the
      origin they leave in force. */
  function NameLines(origin: string): seq<string> {
    Split("$ORIGIN " + Fqdn(origin), '\n')
  }

  function NameScan(origin: string): Scanned {
    Scan(NameLines(origin), Fqdn(origin), None)
  }

  function NameContext(origin: string): string {
    ContextAfter(NameLines(origin), Fqdn(origin), None).0
  }

  /** A zone name whose own lines hold an SOA; on one line it does not. */
  predicate HoldsSoa(origin: string) {
    SoaIndex(NameScan(origin).records) < |NameScan(origin).records|
  }

  /** What any built text scans to. */
  lemma BuildScan(origin: string, soa: SoaData, recs: seq<Record>)
    ensures var head := NameScan(origin);
            var body := Scan(Split(BuildBody(soa, recs), '\n'), NameContext(origin), Some(EffectiveTtl(soa)));
            ScanText(BuildText(origin, soa, recs), Fqdn(origin))
            == if head.ok then Scanned(head.records + body.records, body.ok) else head
  {
    var o, ttl, body := Fqdn(origin), EffectiveTtl(soa), BuildBody(soa, recs);
    var rest := "$TTL " + Dec(ttl) + "\n" + body;
    SplitConcat("$ORIGIN " + o, rest);
    ScanAppend(NameLines(origin), Split(rest, '\n'), o, None);
    var context := ContextAfter(NameLines(origin), o, None);
    TtlLineScan(ttl, body, context.0, context.1);
    hide BuildSoaLine, BuildLines, Scan, Split, Dec, EffectiveTtl, Fqdn, ContextAfter;
  }

  lemma OneLineHoldsNoSoa(origin: string)
    requires '\n' !in origin
    ensures !HoldsSoa(origin) && NameScan(origin).records == []
    ensures IsName(Apex(origin)) ==> NameScan(origin).ok && NameContext(origin) == Apex(origin)
  {
    FqdnOneLine(origin);
    var o := Fqdn(origin);
    var line := "$ORIGIN " + o;
    OriginLineTokens(o);
    SplitNone(line, '\n');
    DirectiveIsNoRecord(line, o, None);
    ScanOnce([line], o, None);
    ContextOnce([line], o, None);
    if IsName(Apex(origin)) {
      ApexIsFqdn(origin);
      OriginLineReads(o, o, None);
      NoContext(Apex(origin), None);
    }
    assert [line][1..] == [];
    ScanNothing(o, None);
    ScanNothing(Apex(origin), None);
    hide ReadLine, Scan, Split, Fqdn, IsName, ContextAfter;
  }

  lemma DirectiveIsNoRecord(line: string, origin: string, defaultTtl: Option<uint32>)
    requires line != "" && line[0] == '$'
    ensures !ReadLine(line, origin, defaultTtl).Resource?
  {
  }

  // ---------------------------------------------------------------------
  // Names that break the SOA line or comment it out
  // ---------------------------------------------------------------------

  function FirstLine(s: string): string {
    Split(s, '\n')[0]
  }

  /** The line the parser takes for the SOA when a name breaks it. */
  function BrokenSoaLine(soa: SoaData): string {
    RecordLine(' ', "@", EffectiveTtl(soa), "SOA", FirstLine(SoaNames(soa)))
  }

  lemma RecordLineGrows(ttl: uint32, a: string, b: string)
    ensures RecordLine(' ', "@", ttl, "SOA", a + b) == RecordLine(' ', "@", ttl, "SOA", a) + b
  {
    hide Dec;
    var c3, d3 := Cell("SOA", ' ', a), Cell("SOA", ' ', a + b);
    assert d3 == c3 + b;
    var c2, d2 := Cell("IN", ' ', c3), Cell("IN", ' ', d3);
    assert d2 == c2 + b;
    var c1, d1 := Cell(Dec(ttl), ' ', c2), Cell(Dec(ttl), ' ', d2);
    assert d1 == c1 + b;
  }

  /** With a line break in a name, the printed SOA line starts with a line of its own that
      holds none of the numbers. */
  lemma BrokenSoaText(soa: SoaData) returns (rest: string)
    requires '\n' in SoaNames(soa)
    ensures '\n' !in BrokenSoaLine(soa)
    ensures BuildSoaLine(soa) == BrokenSoaLine(soa) + "\n" + rest
  {
    var before, after := CutAt(SoaNames(soa), '\n');
    var ttl, tail := EffectiveTtl(soa), " " + SoaTail(soa);
    rest := after + tail;
    BuildSoaData(soa);
    hide SoaNames, SoaTail, RecordLine, BuildSoaLine, Split, EffectiveTtl;
    FirstLineIs(before, after);
    SoaLineOnOneLine(ttl, before);
    Regroup(before, "\n", after, tail);
    RecordLineGrows(ttl, before, "\n" + rest);
    Regroup(BrokenSoaLine(soa), "\n", rest, "");
  }

  lemma FirstLineIs(before: string, after: string)
    requires '\n' !in before
    ensures FirstLine(before + "\n" + after) == before
  {
    SplitFirst(before, '\n', after);
  }

  lemma Regroup(a: string, b: string, c: string, d: string)
    ensures a + b + c + d == a + (b + (c + d))
    ensures c + "" == c
  {
  }

  /** How the first line Build prints for unclean names is read. */
  function BrokenEntry(origin: string, soa: SoaData): Entry {
    var line := if '\n' in SoaNames(soa) then BrokenSoaLine(soa) else BuildSoaLine(soa);
    ReadLine(line, origin, Some(EffectiveTtl(soa)))
  }

  /** SOA data with a comment sign among the names holds none of the numbers. */
  lemma CommentHidesNumbers(soa: SoaData, origin: string)
    requires '\n' !in SoaNames(soa) && ';' in SoaNames(soa)
    ensures var ttl, names := EffectiveTtl(soa), SkipBlanks(SoaNames(soa));
            var rr := if names != "" && !IsSpace(names[0]) then ReadSoa(origin, ttl, names, origin) else None;
            BrokenEntry(origin, soa) == if rr.None? then Malformed else Resource(rr.value)
  {
    var data, names := SoaNames(soa) + (" " + SoaTail(soa)), SkipBlanks(SoaNames(soa));
    var d := SkipBlanks(data);
    BuildSoaData(soa);
    SoaTailWords(soa);
    assert '\n' !in data;
    SkipBlanksHold(SoaNames(soa), ';');
    SkipBlanksHold(data, '\n');
    SoaDataTrimmed(soa);
    SkipBlanksConcat(SoaNames(soa), " " + SoaTail(soa));
    AnySoaLineReads(EffectiveTtl(soa), data, origin, Some(EffectiveTtl(soa)));
    hide SoaNames, SoaTail, BuildSoaLine, ReadLine, Words, SkipBlanks, TrimBlanksRight, RecordLine;
    assert d == names + (" " + SoaTail(soa)) && d[0] == names[0];
    SameComment(origin, EffectiveTtl(soa), names, " " + SoaTail(soa), origin);
  }

  lemma SameComment(owner: string, ttl: uint32, names: string, tail: string, origin: string)
    requires ';' in names
    ensures ReadSoa(owner, ttl, names + tail, origin) == ReadSoa(owner, ttl, names, origin)
  {
    UncommentCuts(names, tail);
    hide Words, NoParens, Uncomment, IsName;
  }

  /** The reading does not depend on the serial. */
  lemma BrokenIgnoresSerial(origin: string, soa: SoaData, serial: uint32)
    requires !CleanNames(soa)
    ensures BrokenEntry(origin, soa.(serial := serial)) == BrokenEntry(origin, soa)
    ensures var e := BrokenEntry(origin, soa); e.Malformed? || (e.Resource? && e.rr.SoaRR?)
  {
    NamesKeep(soa, '\n');
    NamesKeep(soa, ';');
    assert SoaNames(soa.(serial := serial)) == SoaNames(soa);
    if '\n' in SoaNames(soa) {
      AnySoaLineReads(EffectiveTtl(soa), FirstLine(SoaNames(soa)), origin, Some(EffectiveTtl(soa)));
      hide ReadLine, RecordLine, FirstLine, SoaNames, IsData, BuildSoaLine;
    } else {
      hide SoaNames, ReadLine, BuildSoaLine, SkipBlanks;
      CommentHidesNumbers(soa, origin);
      CommentHidesNumbers(soa.(serial := serial), origin);
    }
  }

  lemma FirstEntryScan(line: string, rest: string, origin: string, defaultTtl: Option<uint32>)
    requires '\n' !in line
    ensures var e, s := ReadLine(line, origin, defaultTtl), Scan(Split(line + "\n" + rest, '\n'), origin, defaultTtl);
            && (e.Malformed? ==> !s.ok && s.records == [])
            && (e.Resource? ==> s.records != [] && s.records[0] == e.rr)
  {
    if ReadLine(line, origin, defaultTtl).Malformed? {
      MalformedLineScan(line, rest, origin, defaultTtl);
    } else if ReadLine(line, origin, defaultTtl).Resource? {
      ResourceLineScan(line, ReadLine(line, origin, defaultTtl).rr, rest, origin, defaultTtl);
    }
    hide Scan, Split, ReadLine;
  }

  lemma BrokenBody(origin: string, soa: SoaData, recs: seq<Record>)
    requires !CleanNames(soa)
    ensures var e := BrokenEntry(origin, soa);
            var s := Scan(Split(BuildBody(soa, recs), '\n'), origin, Some(EffectiveTtl(soa)));
            || (e.Malformed? && !s.ok)
            || (e.Resource? && e.rr.SoaRR? && s.records != [] && s.records[0] == e.rr)
  {
    var lines := BuildLines(recs, EffectiveTtl(soa));
    BrokenIgnoresSerial(origin, soa, 0);
    NamesKeep(soa, '\n');
    NamesKeep(soa, ';');
    hide SoaNames, BuildLines, Scan, Split, ReadLine, BrokenSoaLine, BuildSoaLine;
    if '\n' in SoaNames(soa) {
      var rest := BrokenSoaText(soa);
      var line := BrokenSoaLine(soa);
      BrokenRest(line, rest, lines);
      FirstEntryScan(line, rest + ("\n" + lines), origin, Some(EffectiveTtl(soa)));
    } else {
      PrintedOnOneLine(soa);
      FirstEntryScan(BuildSoaLine(soa), lines, origin, Some(EffectiveTtl(soa)));
    }
  }

  lemma PrintedOnOneLine(soa: SoaData)
    requires '\n' !in SoaNames(soa)
    ensures '\n' !in BuildSoaLine(soa)
  {
    BuildSoaData(soa);
    SoaTailWords(soa);
    hide SoaNames, SoaTail, RecordLine;
    SoaLineOnOneLine(EffectiveTtl(soa), SoaNames(soa) + (" " + SoaTail(soa)));
  }

  lemma BrokenRest(line: string, rest: string, lines: string)
    ensures line + "\n" + rest + "\n" + lines == line + "\n" + (rest + ("\n" + lines))
  {
  }

  lemma SoaIndexAppend(a: seq<RR>, b: seq<RR>)
    ensures SoaIndex(a) < |a| ==> SoaIndex(a + b) == SoaIndex(a)
    ensures SoaIndex(a) == |a| && b != [] && b[0].SoaRR? ==> SoaIndex(a + b) == |a|
  {
    var k, n := SoaIndex(a), SoaIndex(a + b);
    assert forall i :: 0 <= i < |a| ==> (a + b)[i] == a[i];
    hide SoaIndex;
    if k < |a| {
      assert (a + b)[k].SoaRR?;
    } else if b != [] && b[0].SoaRR? {
      assert (a + b)[|a|] == b[0];
    }
  }

  /** Unclean names decide the SOA: whatever builds, with any records, has the SOA that their
      first line spells out, whatever the settings' serial is. */
  lemma BrokenLineDecides(origin: string, soa: SoaData, recs: seq<Record>)
    requires !CleanNames(soa) && !HoldsSoa(origin) && BuildZone(origin, soa, recs).Ok?
    ensures var e, z := BrokenEntry(NameContext(origin), soa), BuildZone(origin, soa, recs).value;
            && e.Resource? && e.rr.SoaRR? && HasSoa(z) && SoaOf(z).serial == e.rr.serial
  {
    var context, head := NameContext(origin), NameScan(origin);
    var body := Scan(Split(BuildBody(soa, recs), '\n'), context, Some(EffectiveTtl(soa)));
    BuildScan(origin, soa, recs);
    BrokenBody(context, soa, recs);
    SoaIndexAppend(head.records, body.records);
    hide BrokenEntry, BuildText, ScanText, Scan, Split, NameScan, NameContext, CleanNames, SoaIndex, Fqdn;
  }

  /** A zone name that holds an SOA decides likewise. */
  lemma NameSoaDecides(origin: string, soa: SoaData, recs: seq<Record>)
    requires HoldsSoa(origin) && BuildZone(origin, soa, recs).Ok?
    ensures var z := BuildZone(origin, soa, recs).value;
            var own := NameScan(origin).records[SoaIndex(NameScan(origin).records)];
            HasSoa(z) && own.SoaRR? && SoaOf(z).serial == own.serial
  {
    var context, head := NameContext(origin), NameScan(origin);
    var body := Scan(Split(BuildBody(soa, recs), '\n'), context, Some(EffectiveTtl(soa)));
    BuildScan(origin, soa, recs);
    SoaIndexAppend(head.records, body.records);
    hide BuildText, ScanText, Scan, Split, NameScan, NameContext, Fqdn;
  }

  // ---------------------------------------------------------------------
  // The exact condition
  // ---------------------------------------------------------------------

  /** The settings build with this serial, and the zone's SOA carries it. */
  predicate Carries(origin: string, soa: SoaData, serial: uint32) {
    var z := BuildZone(origin, soa.(serial := serial), []);
    z.Ok? && HasSoa(z.value) && SoaOf(z.value).serial == serial
  }

  /** The exact condition: of the settings the handlers accept, those that carry every serial
      the zone may get are those whose zone name's own lines hold no SOA and whose other
      names hold no line break and no comment sign. */
  lemma SerialIsCarried(origin: string, soa: SoaData)
    requires Accepted(origin, soa)
    ensures (forall serial :: Carries(origin, soa, serial)) <==> !HoldsSoa(origin) && CleanNames(soa)
  {
    if HoldsSoa(origin) {
      if Carries(origin, soa, 0) && Carries(origin, soa, 1) {
        NameSoaDecides(origin, soa.(serial := 0), []);
        NameSoaDecides(origin, soa.(serial := 1), []);
        hide *;
        assert false;
      }
    } else if CleanNames(soa) {
      forall serial ensures Carries(origin, soa, serial) {
        CleanCarries(origin, soa, serial);
      }
    } else {
      BrokenIgnoresSerial(NameContext(origin), soa, 0);
      BrokenIgnoresSerial(NameContext(origin), soa, 1);
      if Carries(origin, soa, 0) && Carries(origin, soa, 1) {
        BrokenLineDecides(origin, soa.(serial := 0), []);
        BrokenLineDecides(origin, soa.(serial := 1), []);
        hide *;
        assert false;
      }
    }
  }

  /** On one line a zone name never stands in the way. */
  lemma SerialIsCarriedOnOneLine(origin: string, soa: SoaData)
    requires Accepted(origin, soa) && '\n' !in origin
    ensures (forall serial :: Carries(origin, soa, serial)) <==> CleanNames(soa)
  {
    OneLineHoldsNoSoa(origin);
    SerialIsCarried(origin, soa);
    hide Accepted, Carries, CleanNames, HoldsSoa;
  }

  lemma CleanBody(origin: string, soa: SoaData)
    requires CleanNames(soa)
    ensures var s := Scan(Split(BuildBody(soa, []), '\n'), origin, Some(EffectiveTtl(soa)));
            if HoldsName(Fqdn(soa.primaryNS)) && HoldsName(DnsMbox(soa.mbox))
            then s == Scanned([RequestedSoa(origin, soa)], true) else !s.ok
  {
    NamesKeep(soa, '\n');
    NamesKeep(soa, ';');
    var line, ttl := BuildSoaLine(soa), EffectiveTtl(soa);
    BuildSoaLineExactly(soa, origin, Some(ttl));
    assert BuildLines([], ttl) == "";
    assert BuildBody(soa, []) == line + "\n";
    hide HoldsName, BuildSoaLine, ReadLine, Scan, Split, RequestedSoa, Fqdn, DnsMbox, BuildLines, BuildBody,
         EffectiveTtl;
    assert line + "\n" + "" == line + "\n";
    if HoldsName(Fqdn(soa.primaryNS)) && HoldsName(DnsMbox(soa.mbox)) {
      OneLineScan(line, RequestedSoa(origin, soa), origin, Some(ttl));
    } else {
      MalformedLineScan(line, "", origin, Some(ttl));
    }
  }

  lemma CleanCarries(origin: string, soa: SoaData, serial: uint32)
    requires Accepted(origin, soa) && CleanNames(soa) && !HoldsSoa(origin)
    ensures Carries(origin, soa, serial)
  {
    var other, head, context := soa.(serial := serial), NameScan(origin), NameContext(origin);
    BuildScan(origin, soa, []);
    BuildScan(origin, other, []);
    CleanBody(context, soa);
    CleanBody(context, other);
    SoaIndexAppend(head.records, [RequestedSoa(context, other)]);
    hide BuildText, ScanText, Scan, Split, NameScan, NameContext, SoaIndex, Fqdn, DnsMbox, HoldsName, BuildBody, NameIn;
  }
}
