/**
 What normalising, building and reading give, record by record and field by field: where a
 relative owner ends up, which TTL is filled in, what a line may leave out.
 */
module ZoneOutcomes {
  import opened Text
  import opened Serial
  import opened ZoneText
  import opened ZoneLaws
  import opened Settings

  // ---------------------------------------------------------------------
  // Owners
  // ---------------------------------------------------------------------

  /** How names are completed: "@" is the zone, an absolute name is itself, any other one has
      the zone's name behind it, with just a dot at the root. */
  lemma OwnersComplete(name: string, origin: string)
    ensures name == "@" ==> Resolve(name, origin) == origin
    ensures name != "" && name[|name| - 1] == '.' ==> Resolve(name, origin) == name
    ensures name != "@" && !(name != "" && name[|name| - 1] == '.') ==>
              Resolve(name, origin) == if origin == "." then name + "." else name + "." + origin
  {
  }

  /** Letters, digits, dots, hyphens, underscores and stars make names. */
  lemma UsualNames(s: string)
    requires s != ""
    requires forall c <- s :: 'a' <= c <= 'z' || 'A' <= c <= 'Z' || '0' <= c <= '9' || c in {'.', '-', '_', '*'}
    ensures IsName(s)
  {
    assert forall i :: 0 <= i < |s| ==> s[i] in s;
  }

  /** Any word of capitals that is no class is a type with a name. */
  lemma UsualTypes(t: string)
    requires t != "" && forall c <- t :: 'A' <= c <= 'Z'
    requires t != "IN" && t != "CH" && t != "HS" && t != "CS" && t != "NONE" && t != "ANY"
    ensures IsMnemonic(t)
  {
    assert forall i :: 0 <= i < |t| ==> t[i] in t;
    if |t| > 4 { assert t[4..][0] == t[4] && !IsDigit(t[4]); }
  }

  /** A zone's name is completed with a dot if it lacks one. */
  lemma ApexIs(zone: string)
    requires zone != "" && !IsBlank(zone[0])
    ensures Apex(zone) == Fqdn(zone) == if zone[|zone| - 1] == '.' then zone else zone + "."
  {
  }

  lemma LineOwner(owner: string, rest: string, origin: string, defaultTtl: Option<uint32>)
    requires IsName(owner)
    ensures var e := ReadLine(Cell(owner, ' ', rest), origin, defaultTtl);
            e.Malformed? || (e.Resource? && e.rr.owner == Resolve(owner, origin))
  {
    var line := Cell(owner, ' ', rest);
    NameIsPlain(owner);
    assert line[0] == owner[0] && SkipBlanks(line) == line;
    hide SkipBlanks, NextToken, IsName;
    NextTokenOfCell(owner, ' ', rest);
    FieldsOwner(line, defaultTtl);
    hide ReadFields;
    InterpretedOwner(ReadFields(line, defaultTtl), origin);
    hide Interpret;
  }

  lemma FieldsOwner(line: string, defaultTtl: Option<uint32>)
    ensures ReadFields(line, defaultTtl).owner == NextToken(line).0
  {
    hide NextToken, TrimBlanksRight, ReadUint32;
  }

  lemma InterpretedOwner(f: Fields, origin: string)
    ensures var rr := Interpret(f, origin); rr.Some? ==> rr.value.owner == Resolve(f.owner, origin)
  {
    hide Words, Uncomment, NoParens, IsName, IsType, IsDataOf, Resolve, ReadUint32;
  }

  /** Which owner a text starting with a name gives its first record. */
  lemma FirstOwner(owner: string, rest: string, zone: string)
    requires '\n' !in zone && IsName(owner)
    ensures var r := NewRR(Cell(owner, ' ', rest), zone);
            r.Ok? ==> IsName(Apex(zone)) && r.value.owner == Resolve(owner, Apex(zone))
  {
    var o, apex, text := Fqdn(zone), Apex(zone), Cell(owner, ' ', rest) + "\n";
    FqdnOneLine(zone);
    AnyOriginScan(o, "$TTL " + Dec(3600) + "\n" + text, o, None);
    TtlLineScan(3600, text, apex, None);
    var first, more := FirstLineOf(owner, rest);
    LineOwner(owner, first, apex, Some(3600));
    FirstEntryScan(Cell(owner, ' ', first), more, apex, Some(3600));
    hide Scan, Split, Dec, ReadLine, IsName, Cell, Fqdn, Apex, Resolve;
  }

  lemma FirstLineOf(owner: string, rest: string) returns (first: string, more: string)
    requires IsName(owner)
    ensures '\n' !in Cell(owner, ' ', first) && Cell(owner, ' ', rest) + "\n" == Cell(owner, ' ', first) + "\n" + more
  {
    NameIsPlain(owner);
    if '\n' in rest {
      var after;
      first, after := CutAt(rest, '\n');
      more := after + "\n";
      assert Cell(owner, ' ', rest) + "\n" == Cell(owner, ' ', first) + "\n" + more;
    } else {
      first, more := rest, "";
      assert Cell(owner, ' ', rest) + "\n" == Cell(owner, ' ', first) + "\n" + more;
    }
  }

  lemma NormalStarts(name: string, ttl: uint32, rtype: string, data: string) returns (rest: string)
    ensures NormalizeLine(name, ttl, rtype, data) == Cell(if name == "" then "@" else name, ' ', rest)
  {
    rest := Cell(Dec(if ttl == 0 then 3600 else ttl), ' ',
                 Cell("IN", ' ', Cell(ToUpper(TrimSpace(rtype)), ' ', TrimSpace(data))));
    hide Dec, TrimSpace, ToUpper;
  }

  lemma AtIsName()
    ensures IsName("@")
  {
  }

  /** The owner under which a record is stored, whatever type and data come in. */
  lemma NormalizedOwner(zone: string, name: string, ttl: uint32, rtype: string, data: string)
    requires '\n' !in zone && (name == "" || IsName(name))
    requires NormalizeRecord(zone, name, ttl, rtype, data).Ok?
    ensures var owner := NormalizeRecord(zone, name, ttl, rtype, data).value.name;
            && (name == "" || name == "@" ==> owner == Apex(zone))
            && (name != "" && name[|name| - 1] == '.' ==> owner == name)
            && (name != "" && name != "@" && name[|name| - 1] != '.' ==>
                  owner == if Apex(zone) == "." then name + "." else name + "." + Apex(zone))
  {
    var own := if name == "" then "@" else name;
    AtIsName();
    OwnersComplete(own, Apex(zone));
    hide NewRR, NormalizeLine, IsName, Resolve, Apex, Rdata, Mnemonic;
    var rest := NormalStarts(name, ttl, rtype, data);
    FirstOwner(own, rest, zone);
  }

  // ---------------------------------------------------------------------
  // A record, normalised
  // ---------------------------------------------------------------------

  /** What is stored of a record the library can read: its name completed, an hour for a zero
      TTL, its type in capitals, its data without outer white space. */
  lemma NormalizesTo(zone: string, name: string, ttl: uint32, rtype: string, data: string)
    requires IsName(Apex(zone)) && (name == "" || IsName(name))
    requires var t := ToUpper(TrimSpace(rtype)); IsMnemonic(t) && t != "SOA"
    requires IsData(TrimSpace(data))
    ensures var r := NormalizeRecord(zone, name, ttl, rtype, data);
            && r.Ok? && r.value.ttl == (if ttl == 0 then 3600 else ttl)
            && r.value.rtype == ToUpper(TrimSpace(rtype)) && r.value.data == TrimSpace(data)
            && (name == "" || name == "@" ==> r.value.name == Apex(zone))
            && (name != "" && name[|name| - 1] == '.' ==> r.value.name == name)
            && (name != "" && name != "@" && name[|name| - 1] != '.' ==>
                  r.value.name == if Apex(zone) == "." then name + "." else name + "." + Apex(zone))
  {
    var own, n := if name == "" then "@" else name, if ttl == 0 then 3600 else ttl;
    var t, d := ToUpper(TrimSpace(rtype)), TrimSpace(data);
    AtIsName();
    OwnersComplete(own, Apex(zone));
    assert IsDataOf(t, d) && Mnemonic(t) == t;
    assert NormalizeLine(name, ttl, rtype, data) == RecordLine(' ', own, n, t, d) by {
      hide RecordLine, TrimSpace, ToUpper;
    }
    hide NewRR, NormalizeLine, RecordLine, IsName, IsMnemonic, IsPrivate, IsDataOf, IsData, TrimSpace, ToUpper,
         Mnemonic, Apex, Resolve;
    TypeOf(t);
    NewRRReads(DataRR(Resolve(own, Apex(zone)), n, t, d), ' ', own, n, zone);
  }

  lemma TypeOf(t: string)
    requires IsMnemonic(t)
    ensures IsType(t) && IsBlank(' ')
  {
    hide IsPrivate;
  }

  /** Only small letters change, each to its capital. */
  lemma CapitalsOf(s: string, i: nat)
    requires i < |s|
    ensures var c := ToUpper(s)[i];
            if 'a' <= s[i] <= 'z' then 'A' <= c <= 'Z' && c as int - s[i] as int == 'A' as int - 'a' as int
            else c == s[i]
  {
  }

  // ---------------------------------------------------------------------
  // A zone, built
  // ---------------------------------------------------------------------

  /** What a built zone holds: the settings as the SOA's fields, an hour for a zero TTL, then
      each row with its name completed and the zone's TTL for a zero one. */
  lemma BuildsAsAsked(zone: string, soa: SoaData, recs: seq<Record>)
    requires GoodSettings(zone, soa) && forall i :: 0 <= i < |recs| ==> Printable(recs[i])
    ensures var z := BuildZone(zone, soa, recs);
            && z.Ok? && z.value.origin == Fqdn(zone) && |z.value.records| == 1 + |recs|
            && var s := z.value.records[0];
            && s.SoaRR? && s.owner == Apex(zone) && s.ttl == (if soa.ttl == 0 then 3600 else soa.ttl)
            && s.ns == NameIn(Fqdn(soa.primaryNS)) && s.mbox == NameIn(DnsMbox(soa.mbox))
            && s.serial == soa.serial && s.refresh == soa.refresh && s.retry == soa.retry
            && s.expire == soa.expire && s.minimum == soa.minimum
    ensures var z := BuildZone(zone, soa, recs);
            forall i :: 0 <= i < |recs| ==>
              var rr, r := z.value.records[i + 1], recs[i];
              && rr.DataRR? && rr.rtype == r.rtype && rr.data == r.data
              && rr.ttl == (if r.ttl != 0 then r.ttl else if soa.ttl != 0 then soa.ttl else 3600)
              && (r.name == "" || r.name == "@" ==> rr.owner == Apex(zone))
              && (r.name != "" && r.name[|r.name| - 1] == '.' ==> rr.owner == r.name)
              && (r.name != "" && r.name != "@" && r.name[|r.name| - 1] != '.' ==>
                    rr.owner == if Apex(zone) == "." then r.name + "." else r.name + "." + Apex(zone))
  {
    BuildParses(zone, soa, recs);
    var z, o, ttl := RequestedZone(zone, soa, recs), Apex(zone), EffectiveTtl(soa);
    SoaIsAsked(o, soa);
    RecordsAreAsked(zone, soa, recs);
    hide BuildZone, RequestedZone, GoodSettings, Printable, NameIn, Fqdn, DnsMbox, Apex, Requested, RequestedSoa;
    forall i | 0 <= i < |recs|
      ensures var rr, r := z.records[i + 1], recs[i];
              && rr.DataRR? && rr.rtype == r.rtype && rr.data == r.data
              && rr.ttl == (if r.ttl != 0 then r.ttl else if soa.ttl != 0 then soa.ttl else 3600)
              && (r.name == "" || r.name == "@" ==> rr.owner == o)
              && (r.name != "" && r.name[|r.name| - 1] == '.' ==> rr.owner == r.name)
              && (r.name != "" && r.name != "@" && r.name[|r.name| - 1] != '.' ==>
                    rr.owner == if o == "." then r.name + "." else r.name + "." + o)
    {
      RecordIsAsked(recs[i], o, ttl);
    }
  }

  lemma RecordsAreAsked(zone: string, soa: SoaData, recs: seq<Record>)
    ensures var z := RequestedZone(zone, soa, recs);
            && z.origin == Fqdn(zone) && |z.records| == 1 + |recs| && z.records[0] == RequestedSoa(Apex(zone), soa)
            && forall i :: 0 <= i < |recs| ==> z.records[i + 1] == Requested(recs[i], Apex(zone), EffectiveTtl(soa))
  {
    hide Fqdn, Apex, RequestedSoa, Requested, EffectiveTtl;
  }

  lemma SoaIsAsked(o: string, soa: SoaData)
    ensures var s := RequestedSoa(o, soa);
            && s.SoaRR? && s.owner == o && s.ttl == (if soa.ttl == 0 then 3600 else soa.ttl)
            && s.ns == NameIn(Fqdn(soa.primaryNS)) && s.mbox == NameIn(DnsMbox(soa.mbox))
            && s.serial == soa.serial && s.refresh == soa.refresh && s.retry == soa.retry
            && s.expire == soa.expire && s.minimum == soa.minimum
  {
    hide NameIn, Fqdn, DnsMbox;
  }

  lemma RecordIsAsked(r: Record, o: string, zoneTtl: uint32)
    ensures var rr := Requested(r, o, zoneTtl);
            && rr.DataRR? && rr.rtype == r.rtype && rr.data == r.data
            && rr.ttl == (if r.ttl != 0 then r.ttl else zoneTtl)
            && (r.name == "" || r.name == "@" ==> rr.owner == o)
            && (r.name != "" && r.name[|r.name| - 1] == '.' ==> rr.owner == r.name)
            && (r.name != "" && r.name != "@" && r.name[|r.name| - 1] != '.' ==>
                  rr.owner == if o == "." then r.name + "." else r.name + "." + o)
  {
    OwnersComplete(if r.name == "" then "@" else r.name, o);
    hide Resolve;
  }

  /** The names of the SOA, for settings that hold one name each: absolute, the address with its
      first '@' as a dot. */
  lemma SoaNamesAsAsked(soa: SoaData, user: string, host: string)
    requires IsName(soa.primaryNS) && IsName(soa.mbox) && soa.mbox == user + "@" + host && '@' !in user
    ensures NameIn(Fqdn(soa.primaryNS))
         == if soa.primaryNS[|soa.primaryNS| - 1] == '.' then soa.primaryNS else soa.primaryNS + "."
    ensures NameIn(DnsMbox(soa.mbox))
         == if host != "" && host[|host| - 1] == '.' then user + "." + host
            else if host == "" then user + "." else user + "." + host + "."
  {
    FirstAtIsDot(user, host);
    var ns, m := soa.primaryNS, user + "." + host;
    assert m[|user|] == '.';
    assert host != "" ==> m[|m| - 1] == host[|host| - 1];
    assert host == "" ==> m == user + ".";
    NameStaysName(ns);
    MboxNameStaysName(soa.mbox, user, host);
    hide IsName;
    NameHoldsItself(Fqdn(ns));
    NameHoldsItself(Fqdn(m));
    assert DnsMbox(soa.mbox) == Fqdn(m);
  }

  lemma NameStaysName(s: string)
    requires IsName(s)
    ensures IsName(Fqdn(s))
  {
    assert IsNameChar('.');
  }

  lemma MboxNameStaysName(mbox: string, user: string, host: string)
    requires IsName(mbox) && mbox == user + "@" + host
    ensures IsName(Fqdn(user + "." + host))
  {
    var m := user + "." + host;
    forall i | 0 <= i < |m| ensures IsNameChar(m[i]) {
      assert IsNameChar(mbox[i]);
      assert i != |user| ==> m[i] == mbox[i];
    }
    assert m[0] == '.' || m[0] == mbox[0];
    NameStaysName(m);
  }

  lemma {:induction false} FirstAtIsDot(user: string, host: string)
    requires '@' !in user
    ensures ReplaceFirstAt(user + "@" + host) == user + "." + host
  {
    if user == "" {
      assert ("" + "@" + host)[1..] == host;
      assert "" + "@" + host == "@" + host && "" + "." + host == "." + host;
    } else {
      assert (user + "@" + host)[1..] == user[1..] + "@" + host;
      FirstAtIsDot(user[1..], host);
      assert [user[0]] + (user[1..] + "." + host) == user + "." + host;
    }
  }

  // ---------------------------------------------------------------------
  // A line, read
  // ---------------------------------------------------------------------

  /** What a record line may leave out: the TTL, for which the default stands, and the class. */
  lemma ShortLinesRead(owner: string, ttl: uint32, rtype: string, data: string, origin: string, defaultTtl: uint32)
    requires IsName(owner) && IsType(rtype) && rtype != "SOA" && IsDataOf(rtype, data)
    ensures var rr := DataRR(Resolve(owner, origin), ttl, rtype, data);
            && ReadLine(Cell(owner, ' ', Cell(Dec(ttl), ' ', Cell(rtype, ' ', data))), origin, Some(defaultTtl))
               == Resource(rr)
            && ReadLine(Cell(owner, ' ', Cell("IN", ' ', Cell(rtype, ' ', data))), origin, Some(defaultTtl))
               == Resource(rr.(ttl := defaultTtl))
            && ReadLine(Cell(owner, ' ', Cell(rtype, ' ', data)), origin, Some(defaultTtl))
               == Resource(rr.(ttl := defaultTtl))
            && ReadLine(Cell(owner, ' ', Cell(rtype, ' ', data)), origin, None).Malformed?
  {
    var d := Cell(rtype, ' ', data);
    WithoutTtl(owner, rtype, data, Some(defaultTtl));
    WithoutTtl(owner, rtype, data, None);
    WithoutClass(owner, ttl, rtype, data, Some(defaultTtl));
    ClassOnly(owner, rtype, data, Some(defaultTtl));
    hide *;
    FieldsDecide(owner, d, Some(defaultTtl), rtype, data, origin, Some(defaultTtl));
    FieldsDecide(owner, d, None, rtype, data, origin, None);
    FieldsDecide(owner, Cell(Dec(ttl), ' ', d), Some(ttl), rtype, data, origin, Some(defaultTtl));
    FieldsDecide(owner, Cell("IN", ' ', d), Some(defaultTtl), rtype, data, origin, Some(defaultTtl));
  }

  lemma FieldsDecide(owner: string, rest: string, ttl: Option<uint32>, rtype: string, data: string, origin: string,
                     defaultTtl: Option<uint32>)
    requires IsName(owner) && IsType(rtype) && rtype != "SOA" && IsDataOf(rtype, data)
    requires ReadFields(Cell(owner, ' ', rest), defaultTtl) == Fields(owner, ttl, rtype, data)
    ensures ReadLine(Cell(owner, ' ', rest), origin, defaultTtl)
         == if ttl.None? then Malformed else Resource(DataRR(Resolve(owner, origin), ttl.value, rtype, data))
  {
    TokenStarts(owner, rest);
    hide SkipBlanks, IsName, IsType, IsDataOf, ReadFields, Resolve, ReadSoa, Cell;
  }

  lemma ParsesPlain(owner: string, rtype: string, data: string)
    requires IsName(owner) && IsType(rtype) && IsDataOf(rtype, data)
    ensures IsToken(owner) && IsToken(rtype) && !AllDigits(rtype) && rtype != "IN"
    ensures NextToken(Cell(rtype, ' ', data)) == (rtype, data) && TrimBlanksRight(data) == data
  {
    NameIsPlain(owner);
    TypeIsPlain(rtype);
    TypeIsNoNumber(rtype);
    DataIsTrimmed(data);
    NextTokenOfCell(rtype, ' ', data);
    hide NextToken, SkipBlanks, IsName, IsType, TrimBlanksRight, AllDigits;
  }

  lemma WithoutTtl(owner: string, rtype: string, data: string, defaultTtl: Option<uint32>)
    requires IsName(owner) && IsType(rtype) && IsDataOf(rtype, data)
    ensures ReadFields(Cell(owner, ' ', Cell(rtype, ' ', data)), defaultTtl) == Fields(owner, defaultTtl, rtype, data)
  {
    ParsesPlain(owner, rtype, data);
    ShortFields(owner, rtype, data);
    hide NextToken, IsName, IsType, IsDataOf, TrimBlanksRight, AllDigits, Cell, IsToken;
  }

  lemma WithoutClass(owner: string, ttl: uint32, rtype: string, data: string, defaultTtl: Option<uint32>)
    requires IsName(owner) && IsType(rtype) && IsDataOf(rtype, data)
    ensures ReadFields(Cell(owner, ' ', Cell(Dec(ttl), ' ', Cell(rtype, ' ', data))), defaultTtl)
         == Fields(owner, Some(ttl), rtype, data)
  {
    ParsesPlain(owner, rtype, data);
    NumeralReads(ttl);
    DigitsArePlain(Dec(ttl));
    ShortFields(owner, Dec(ttl), Cell(rtype, ' ', data));
    ShortFields(Dec(ttl), rtype, data);
    hide NextToken, IsName, IsType, IsDataOf, TrimBlanksRight, AllDigits, Cell, IsToken, Dec, ReadUint32;
  }

  lemma ClassOnly(owner: string, rtype: string, data: string, defaultTtl: Option<uint32>)
    requires IsName(owner) && IsType(rtype) && IsDataOf(rtype, data)
    ensures ReadFields(Cell(owner, ' ', Cell("IN", ' ', Cell(rtype, ' ', data))), defaultTtl)
         == Fields(owner, defaultTtl, rtype, data)
  {
    ParsesPlain(owner, rtype, data);
    ClassIsToken();
    ShortFields(owner, "IN", Cell(rtype, ' ', data));
    ShortFields("IN", rtype, data);
    hide NextToken, IsName, IsType, IsDataOf, TrimBlanksRight, AllDigits, Cell, IsToken;
  }

  lemma ClassIsToken()
    ensures IsToken("IN") && !AllDigits("IN")
  {
    assert !IsDigit("IN"[0]);
  }

  lemma TypeIsNoNumber(rtype: string)
    requires IsType(rtype)
    ensures !AllDigits(rtype) && rtype != "IN"
  {
    assert !IsDigit(rtype[0]);
  }

  lemma TokenStarts(owner: string, rest: string)
    requires IsName(owner)
    ensures var line := Cell(owner, ' ', rest); SkipBlanks(line) == line && line != "" && line[0] != '$'
  {
    NameIsPlain(owner);
    assert Cell(owner, ' ', rest)[0] == owner[0];
  }

  /** The first token of two, and what is left. */
  lemma ShortFields(first: string, second: string, rest: string)
    requires IsToken(first) && IsToken(second)
    ensures NextToken(Cell(first, ' ', Cell(second, ' ', rest))) == (first, Cell(second, ' ', rest))
    ensures NextToken(Cell(second, ' ', rest)) == (second, SkipBlanks(rest))
  {
    NextTokenOfCell(first, ' ', Cell(second, ' ', rest));
    NextTokenOfCell(second, ' ', rest);
    assert SkipBlanks(Cell(second, ' ', rest)) == Cell(second, ' ', rest);
  }

  // ---------------------------------------------------------------------
  // Data records
  // ---------------------------------------------------------------------

  /** The editable rows of a zone: all but the SOA, field by field, in order. */
  lemma {:induction false} DataRecordsExactly(a: seq<RR>, rr: RR, b: seq<RR>)
    requires rr.DataRR? ==> rr.rtype != "SOA"
    ensures DataRecordsOf(a + [rr] + b)
         == DataRecordsOf(a)
            + (if rr.SoaRR? then []
               else [Record(rr.owner, rr.ttl, if IsPrivate(rr.rtype) then "" else rr.rtype, rr.data)])
            + DataRecordsOf(b)
    ensures DataRecordsOf([]) == []
    decreases |a|
  {
    if a == [] {
      FirstView(rr);
      assert ([] + [rr] + b)[1..] == b && [] + [rr] + b == [rr] + b;
      hide View, IsPrivate;
    } else {
      var rest := a[1..] + [rr] + b;
      assert (a + [rr] + b)[1..] == rest && (a + [rr] + b)[0] == a[0];
      DataRecordsExactly(a[1..], rr, b);
      hide View, IsPrivate;
    }
  }

  lemma FirstView(rr: RR)
    requires rr.DataRR? ==> rr.rtype != "SOA"
    ensures rr.SoaRR? ==> View(rr).rtype == "SOA"
    ensures rr.DataRR? ==>
              View(rr).rtype != "SOA"
              && View(rr) == Record(rr.owner, rr.ttl, if IsPrivate(rr.rtype) then "" else rr.rtype, rr.data)
  {
  }

  // ---------------------------------------------------------------------
  // A line, added
  // ---------------------------------------------------------------------

  /** What an edit makes of a line with neither TTL nor class: the owner completed with the zone's
      name, an hour for the TTL. */
  lemma AddedLine(zone: string, owner: string, rtype: string, data: string)
    requires IsName(Apex(zone)) && IsName(owner) && IsType(rtype) && rtype != "SOA" && IsDataOf(rtype, data)
    ensures var r := NewRR(Cell(owner, ' ', Cell(rtype, ' ', data)), zone);
            && r.Ok? && r.value.DataRR? && r.value.ttl == 3600 && r.value.rtype == rtype && r.value.data == data
            && (owner == "@" ==> r.value.owner == Apex(zone))
            && (owner[|owner| - 1] == '.' ==> r.value.owner == owner)
            && (owner != "@" && owner[|owner| - 1] != '.' ==>
                  r.value.owner == if Apex(zone) == "." then owner + "." else owner + "." + Apex(zone))
  {
    var apex, line := Apex(zone), Cell(owner, ' ', Cell(rtype, ' ', data));
    OwnersComplete(owner, apex);
    WithoutTtl(owner, rtype, data, Some(3600));
    LineIsOne(owner, rtype, data);
    ApexIsFqdn(zone);
    hide IsName, IsType, IsDataOf, ReadFields, Resolve, Cell, Scan, Split, Dec, Fqdn, Apex;
    FieldsDecide(owner, Cell(rtype, ' ', data), Some(3600), rtype, data, apex, Some(3600));
    OriginLineScan(Fqdn(zone), "$TTL " + Dec(3600) + "\n" + (line + "\n"), Fqdn(zone), None);
    TtlLineScan(3600, line + "\n", apex, None);
    OneLineScan(line, DataRR(Resolve(owner, apex), 3600, rtype, data), apex, Some(3600));
    ApexSkips(zone);
  }

  lemma ApexSkips(zone: string)
    ensures SkipBlanks(Fqdn(zone)) == Apex(zone)
  {
  }

  lemma LineIsOne(owner: string, rtype: string, data: string)
    requires IsName(owner) && IsType(rtype) && IsDataOf(rtype, data)
    ensures '\n' !in Cell(owner, ' ', Cell(rtype, ' ', data))
  {
    NameIsPlain(owner);
    TypeIsPlain(rtype);
    CellHasNoNewline(rtype, ' ', data);
    CellHasNoNewline(owner, ' ', Cell(rtype, ' ', data));
  }

  // ---------------------------------------------------------------------
  // In print
  // ---------------------------------------------------------------------

  lemma DigitsInPrint()
    ensures Dec(1) == "1" && Dec(2) == "2" && Dec(3) == "3" && Dec(4) == "4" && Dec(5) == "5" && Dec(60) == "60"
  {
    assert Dec(6) == "6";
  }

  lemma NumbersJoined(a: string, b: string, c: string, d: string, e: string, last: string)
    ensures Join([a, b, c, d, e], ' ') == a + " " + (b + " " + (c + " " + (d + " " + e)))
    ensures Join([a, b, c, d, e] + [last], ' ') == a + " " + (b + " " + (c + " " + (d + " " + (e + " " + last))))
  {
    assert [a, b, c, d, e] == [a] + ([b] + ([c] + ([d] + [e])));
    assert [a, b, c, d, e] + [last] == [a] + ([b] + ([c] + ([d] + ([e] + [last]))));
    assert Join([e], ' ') == e && Join([last], ' ') == last;
    hide Join;
    JoinCons(d, [e]);
    JoinCons(c, [d] + [e]);
    JoinCons(b, [c] + ([d] + [e]));
    JoinCons(a, [b] + ([c] + ([d] + [e])));
    JoinCons(e, [last]);
    JoinCons(d, [e] + [last]);
    JoinCons(c, [d] + ([e] + [last]));
    JoinCons(b, [c] + ([d] + ([e] + [last])));
    JoinCons(a, [b] + ([c] + ([d] + ([e] + [last]))));
  }

  lemma SoaJoined(ns: string, mbox: string, numbers: seq<string>)
    requires numbers != []
    ensures Join([ns, mbox] + numbers, ' ') == ns + " " + (mbox + " " + Join(numbers, ' '))
    ensures Join([ns, mbox] + ["("] + numbers + [")"], ' ')
         == ns + " " + (mbox + " " + ("(" + " " + Join(numbers + [")"], ' ')))
  {
    assert [ns, mbox] + numbers == [ns] + ([mbox] + numbers);
    assert [ns, mbox] + ["("] + numbers + [")"] == [ns] + ([mbox] + (["("] + (numbers + [")"])));
    hide Join;
    JoinCons(mbox, numbers);
    JoinCons(ns, [mbox] + numbers);
    JoinCons("(", numbers + [")"]);
    JoinCons(mbox, ["("] + (numbers + [")"]));
    JoinCons(ns, [mbox] + (["("] + (numbers + [")"])));
  }

  lemma NumbersInPrint()
    ensures SoaNumbers(1, 2, 3, 4, 5) == ["1", "2", "3", "4", "5"]
  {
    DigitsInPrint();
    hide Dec;
  }

  function PrintedSoa(): RR {
    SoaRR("e.", 60, "n.", "m.", 1, 2, 3, 4, 5)
  }

  function PrintedRow(): RR {
    DataRR("w.e.", 60, "A", "192.0.2.1")
  }

  lemma NumbersLiteral()
    ensures "n." + " " + ("m." + " " + ("1" + " " + ("2" + " " + ("3" + " " + ("4" + " " + "5"))))) == "n. m. 1 2 3 4 5"
  {
  }

  lemma SoaDataInPrint()
    ensures Rdata(PrintedSoa()) == "n. m. 1 2 3 4 5"
  {
    NumbersInPrint();
    SoaJoined("n.", "m.", ["1", "2", "3", "4", "5"]);
    NumbersJoined("1", "2", "3", "4", "5", ")");
    NumbersLiteral();
    hide Dec, Join, SoaNumbers;
  }

  lemma SoaInPrint()
    ensures RRLine(PrintedSoa()) == "e." + "\t" + ("60" + "\t" + ("IN" + "\t" + ("SOA" + "\t" + "n. m. 1 2 3 4 5")))
  {
    SoaDataInPrint();
    DigitsInPrint();
    hide Dec, Rdata;
  }

  lemma RowInPrint()
    ensures RRLine(PrintedRow()) == "w.e." + "\t" + ("60" + "\t" + ("IN" + "\t" + ("A" + "\t" + "192.0.2.1")))
  {
    DigitsInPrint();
    hide Dec;
  }

  lemma TwoRendered(origin: string, a: RR, b: RR)
    ensures RenderText(ZoneData(origin, [a, b]))
         == "$ORIGIN " + origin + "\n" + (RRLine(a) + "\n" + (RRLine(b) + "\n" + ""))
  {
    hide RRLine;
    assert [a, b][1..] == [b] && [b][1..] == [];
    assert RRLines([]) == "" && RRLines([b]) == RRLine(b) + "\n" + "";
    assert RRLines([a, b]) == RRLine(a) + "\n" + RRLines([b]);
  }

  lemma RenderedLiterals()
    ensures "e." + "\t" + ("60" + "\t" + ("IN" + "\t" + ("SOA" + "\t" + "n. m. 1 2 3 4 5")))
         == "e.\t60\tIN\tSOA\tn. m. 1 2 3 4 5"
    ensures "w.e." + "\t" + ("60" + "\t" + ("IN" + "\t" + ("A" + "\t" + "192.0.2.1"))) == "w.e.\t60\tIN\tA\t192.0.2.1"
    ensures "$ORIGIN " + "e." == "$ORIGIN e." && "\n" + "" == "\n"
  {
  }

  lemma LastLineEnds(a: string)
    ensures a + "\n" + "" == a + "\n"
  {
  }

  /** A zone file as it is written: tabs between fields, the SOA's numbers in their order. */
  lemma RenderedText()
    ensures RenderText(ZoneData("e.", [PrintedSoa(), PrintedRow()]))
         == "$ORIGIN e." + "\n"
            + ("e.\t60\tIN\tSOA\tn. m. 1 2 3 4 5" + "\n"
               + ("w.e.\t60\tIN\tA\t192.0.2.1" + "\n"))
  {
    hide *;
    SoaInPrint();
    RowInPrint();
    TwoRendered("e.", PrintedSoa(), PrintedRow());
    RenderedLiterals();
    LastLineEnds(RRLine(PrintedRow()));
  }

  function BuiltSoa(): SoaData {
    SoaData("n.", "a@b", 2, 3, 4, 5, 60, 1)
  }

  lemma NamesInPrint()
    ensures Fqdn("n.") == "n." && Fqdn("e") == "e." && DnsMbox("a@b") == "a.b."
  {
    assert "a@b"[1..] == "@b";
  }

  lemma SoaBuilt()
    ensures BuildSoaLine(BuiltSoa())
         == "@" + " " + ("60" + " " + ("IN" + " " + ("SOA" + " " + "n. a.b. ( 1 2 3 4 5 )")))
  {
    NumbersInPrint();
    DigitsInPrint();
    NamesInPrint();
    SoaJoined("n.", "a.b.", ["1", "2", "3", "4", "5"]);
    NumbersJoined("1", "2", "3", "4", "5", ")");
    SoaLiteral();
    hide Dec, Join, SoaNumbers, Fqdn, DnsMbox;
  }

  lemma SoaLiteral()
    ensures "n." + " " + ("a.b." + " " + ("(" + " " + ("1" + " " + ("2" + " " + ("3" + " "
            + ("4" + " " + ("5" + " " + ")")))))))
         == "n. a.b. ( 1 2 3 4 5 )"
  {
  }

  lemma RowBuilt()
    ensures BuildLines([Record("w", 0, "A", "192.0.2.1")], 60)
         == "w" + " " + ("60" + " " + ("IN" + " " + ("A" + " " + "192.0.2.1"))) + "\n" + ""
  {
    DigitsInPrint();
    hide Dec;
    var r := Record("w", 0, "A", "192.0.2.1");
    assert [r][1..] == [] && BuildLines([], 60) == "";
    assert BuildLine(r, 60) == "w" + " " + ("60" + " " + ("IN" + " " + ("A" + " " + "192.0.2.1")));
    hide BuildLine;
  }

  lemma BuiltLiterals(data: string)
    ensures "@" + " " + ("60" + " " + ("IN" + " " + ("SOA" + " " + data))) == "@ 60 IN SOA " + data
    ensures "w" + " " + ("60" + " " + ("IN" + " " + ("A" + " " + "192.0.2.1"))) == "w 60 IN A 192.0.2.1"
    ensures "$ORIGIN " + "e." == "$ORIGIN e." && "$TTL " + "60" == "$TTL 60"
  {
    assert "@" + " " + ("60" + " " + ("IN" + " " + "SOA ")) == "@ 60 IN SOA ";
  }

  /** The text a zone is built from: the default TTL, the SOA at the apex with its numbers in
      parentheses, then a line for each row. */
  lemma BuiltText()
    ensures BuildText("e", BuiltSoa(), [Record("w", 0, "A", "192.0.2.1")])
         == "$ORIGIN e." + "\n"
            + ("$TTL 60" + "\n"
               + ("@ 60 IN SOA " + "n. a.b. ( 1 2 3 4 5 )" + "\n"
                  + ("w 60 IN A 192.0.2.1" + "\n")))
  {
    assert EffectiveTtl(BuiltSoa()) == 60;
    SoaBuilt();
    RowBuilt();
    DigitsInPrint();
    NamesInPrint();
    BuiltLiterals("n. a.b. ( 1 2 3 4 5 )");
    LastLineEnds("w 60 IN A 192.0.2.1");
    hide Dec, Fqdn, BuildSoaLine, BuildLines, BuiltSoa, EffectiveTtl;
  }
}
