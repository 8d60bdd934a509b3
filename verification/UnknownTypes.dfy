/**
 Records of a type that dns.TypeToString does not know: the editors and import accept them,
 the store keeps them without a type, and no zone that holds one builds.
 */
module UnknownTypes {
  import opened Text
  import opened Serial
  import opened ZoneText
  import opened ZoneLaws
  import opened Settings

  /** The rows the store can come to hold by editing and importing. */
  predicate Storable(r: Record) {
    Canonical(r) || Typeless(r)
  }

  lemma GenericWord(data: string)
    requires IsGeneric(data)
    ensures !IsBlank(data[0]) && !IsType(NextToken(data).0)
  {
  }

  /** Build prints a row without a type as a line that does not parse. */
  lemma TypelessLineReads(r: Record, zoneTtl: uint32, origin: string, defaultTtl: Option<uint32>)
    requires Typeless(r)
    ensures '\n' !in BuildLine(r, zoneTtl) && ReadLine(BuildLine(r, zoneTtl), origin, defaultTtl).Malformed?
  {
    var ttl := if r.ttl == 0 then zoneTtl else r.ttl;
    TypelessFields(r.name, ttl, r.data, defaultTtl);
    TypelessShape(r.name, ttl, r.data);
    var line := BuildLine(r, zoneTtl);
    hide ReadFields, IsName, IsType, RecordLine;
    RecordLineReads(line, origin, defaultTtl);
  }

  lemma TypelessShape(owner: string, ttl: uint32, data: string)
    requires IsName(owner) && IsData(data)
    ensures var line := RecordLine(' ', owner, ttl, "", data);
            '\n' !in line && line != "" && !IsBlank(line[0]) && line[0] != '$'
  {
    NameIsPlain(owner);
    DigitsArePlain(Dec(ttl));
    CellHasNoNewline("", ' ', data);
    CellHasNoNewline("IN", ' ', Cell("", ' ', data));
    CellHasNoNewline(Dec(ttl), ' ', Cell("IN", ' ', Cell("", ' ', data)));
    CellHasNoNewline(owner, ' ', Cell(Dec(ttl), ' ', Cell("IN", ' ', Cell("", ' ', data))));
  }

  lemma TypelessFields(owner: string, ttl: uint32, data: string, defaultTtl: Option<uint32>)
    requires IsName(owner) && IsGeneric(data)
    ensures !IsType(ReadFields(RecordLine(' ', owner, ttl, "", data), defaultTtl).rtype)
  {
    var c3 := Cell("", ' ', data);
    var c2 := Cell("IN", ' ', c3);
    var c1 := Cell(Dec(ttl), ' ', c2);
    NameIsPlain(owner);
    DigitsArePlain(Dec(ttl));
    GenericWord(data);
    assert c3 == " " + data && c3[1..] == data;
    assert c1[0] == Dec(ttl)[0] && c2[0] == 'I';
    assert SkipBlanks(c1) == c1 && SkipBlanks(c2) == c2 && SkipBlanks(c3) == data;
    NextTokenOfCell(owner, ' ', c1);
    NextTokenOfCell(Dec(ttl), ' ', c2);
    NextTokenOfCell("IN", ' ', c3);
    hide NextToken, IsType, IsName, SkipBlanks;
  }

  lemma CanonicalIsPrintable(r: Record)
    requires Canonical(r)
    ensures Printable(r) && !Typeless(r)
  {
  }

  lemma StorableLineReads(r: Record, zoneTtl: uint32, origin: string, defaultTtl: Option<uint32>)
    requires Storable(r)
    ensures '\n' !in BuildLine(r, zoneTtl)
    ensures ReadLine(BuildLine(r, zoneTtl), origin, defaultTtl)
         == if Canonical(r) then Resource(Requested(r, origin, zoneTtl)) else Malformed
  {
    if Canonical(r) {
      CanonicalIsPrintable(r);
      BuildLineReads(r, zoneTtl, origin, defaultTtl);
    } else {
      TypelessLineReads(r, zoneTtl, origin, defaultTtl);
    }
    hide BuildLine, ReadLine, Canonical, Typeless, Printable, Requested;
  }

  ghost predicate AllCanonical(recs: seq<Record>) {
    forall r <- recs :: Canonical(r)
  }

  ghost predicate AllStorable(recs: seq<Record>) {
    forall r <- recs :: Storable(r)
  }

  /** The printed rows scan without error exactly when each has a type. */
  lemma {:induction false} StorableLinesScan(recs: seq<Record>, zoneTtl: uint32, origin: string,
                                             defaultTtl: Option<uint32>)
    requires AllStorable(recs)
    ensures Scan(Split(BuildLines(recs, zoneTtl), '\n'), origin, defaultTtl).ok <==> AllCanonical(recs)
  {
    hide Scan, Split, ReadLine, BuildLine, Storable, Canonical;
    if recs == [] {
      ScanNothing(origin, defaultTtl);
    } else {
      var line, rest := BuildLine(recs[0], zoneTtl), BuildLines(recs[1..], zoneTtl);
      assert recs[0] in recs && recs == [recs[0]] + recs[1..];
      StorableLineReads(recs[0], zoneTtl, origin, defaultTtl);
      StorableLinesScan(recs[1..], zoneTtl, origin, defaultTtl);
      if Canonical(recs[0]) {
        ResourceLineScan(line, Requested(recs[0], origin, zoneTtl), rest, origin, defaultTtl);
      } else {
        MalformedLineScan(line, rest, origin, defaultTtl);
      }
    }
  }

  /** A zone of stored rows builds exactly when every row has a type. */
  lemma BuildsExactly(origin: string, soa: SoaData, recs: seq<Record>)
    requires SafeSettings(origin, soa) && AllStorable(recs)
    ensures BuildZone(origin, soa, recs).Ok? <==> AllCanonical(recs)
  {
    SafeExactly(origin, soa);
    var o, ttl := Apex(origin), EffectiveTtl(soa);
    var line, lines := BuildSoaLine(soa), BuildLines(recs, ttl);
    hide SafeSettings, BuildSoaLine, Scan, Split, ReadLine, HoldsName, RequestedSoa, Apex, Fqdn, IsName, DnsMbox,
         BuildText, EffectiveTtl;
    GoodIsClean(origin, soa);
    BuildTextHead(origin, soa, recs);
    BuildSoaLineReads(soa, o, Some(ttl));
    ResourceLineScan(line, RequestedSoa(o, soa), lines, o, Some(ttl));
    StorableLinesScan(recs, ttl, o, Some(ttl));
  }

  /** Exactly when an accepted record leaves the zone buildable: when the library knows its
      type. */
  lemma AcceptedBuilds(origin: string, soa: SoaData, recs: seq<Record>,
                       name: string, ttl: uint32, rtype: string, data: string)
    requires SafeSettings(origin, soa) && AllCanonical(recs)
    requires NormalizeRecord(origin, name, ttl, rtype, data).Ok?
    ensures var r := NormalizeRecord(origin, name, ttl, rtype, data).value;
            Storable(r) && (BuildZone(origin, soa, recs + [r]).Ok? <==> r.rtype != "")
  {
    hide *;
    var r := NormalizeRecord(origin, name, ttl, rtype, data).value;
    SafeIsClean(origin, soa);
    NormalizedIsCanonical(origin, name, ttl, rtype, data);
    TypelessHasNoType(r);
    StorableIs(r);
    AllSnoc(recs, r);
    BuildsExactly(origin, soa, recs + [r]);
  }

  lemma SafeIsClean(origin: string, soa: SoaData)
    requires SafeSettings(origin, soa)
    ensures '\n' !in origin && CleanNames(soa)
  {
    hide Accepted;
  }

  lemma StorableIs(r: Record)
    ensures Storable(r) <==> Canonical(r) || Typeless(r)
  {
  }

  lemma AllSnoc(recs: seq<Record>, r: Record)
    requires AllCanonical(recs) && Storable(r)
    ensures AllStorable(recs + [r]) && (AllCanonical(recs + [r]) <==> Canonical(r))
  {
    hide Canonical, Typeless;
    assert r in recs + [r];
  }

  lemma TypelessHasNoType(r: Record)
    ensures Typeless(r) ==> r.rtype == "" && !Canonical(r)
    ensures Canonical(r) ==> r.rtype != ""
  {
  }

  // ---------------------------------------------------------------------
  // An accepted record that stops the zone building
  // ---------------------------------------------------------------------

  const GENERIC: string := "\\# 4 0A000001"

  function UnknownRecord(): Record {
    Record("www.example.com.", 60, "", GENERIC)
  }

  lemma NumberedIsPrivate()
    ensures IsPrivate("TYPE65280") && IsType("TYPE65280") && IsDataOf("TYPE65280", GENERIC)
  {
    var s := "TYPE65280";
    assert s[4..] == "65280";
    assert AllDigits("65280");
    var d := "65280";
    assert d[..4] == "6528" && d[..4][..3] == "652" && d[..4][..3][..2] == "65" && d[..4][..3][..2][..1] == "6";
    assert DecValue("6") == 6 && DecValue("65") == 65 && DecValue("652") == 652 && DecValue("6528") == 6528;
    assert DecValue("65280") == 65280;
  }

  lemma ExampleNames()
    ensures Apex("example.com") == "example.com." && IsName("example.com.") && IsName("www")
    ensures Resolve("www", "example.com.") == "www.example.com."
  {
    assert Fqdn("example.com") == "example.com." && SkipBlanks("example.com.") == "example.com.";
  }

  /** TYPE65280 is accepted and stored without a type. */
  lemma UnknownTypeIsAccepted()
    ensures NormalizeRecord("example.com", "www", 60, "TYPE65280", GENERIC) == Ok(UnknownRecord())
    ensures !Canonical(UnknownRecord())
  {
    NumberedIsPrivate();
    ExampleNames();
    ToUpperKeepsType("TYPE65280");
    TrimSpaceKeeps(GENERIC);
    hide NewRR, IsType, IsPrivate, IsDataOf, Apex, Resolve, IsName, RecordLine, ToUpper, TrimSpace, GENERIC;
    NewRRReads(DataRR("www.example.com.", 60, "TYPE65280", GENERIC), ' ', "www", 60, "example.com");
  }

  /** And from then on no zone with safe settings that holds it builds. */
  lemma UnknownTypeStopsBuild(soa: SoaData, recs: seq<Record>)
    requires SafeSettings("example.com", soa) && AllCanonical(recs)
    ensures BuildZone("example.com", soa, recs).Ok? && BuildZone("example.com", soa, recs + [UnknownRecord()]).Err?
  {
    UnknownTypeIsAccepted();
    AcceptedBuilds("example.com", soa, recs, "www", 60, "TYPE65280", GENERIC);
    hide BuildZone, NormalizeRecord, SafeSettings, Canonical;
    BuildsExactly("example.com", soa, recs);
  }
}
