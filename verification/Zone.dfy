/**
 The in-memory zone of internal/zone: parsing, rendering, building, serial bumping and
 in-place edits, in loops and updates, each proved against the zone-text functions; and what
 any sequence of edits keeps.
 */
module ZoneModel {
  import opened Text
  import opened Serial
  import opened ZoneText
  import opened ZoneLaws

  // ---------------------------------------------------------------------
  // Edits on zone values
  // ---------------------------------------------------------------------

  datatype Edit =
    | AddLine(line: string)
    | RemoveMatch(name: string, rtype: string, data: string)
    | ReplaceMatch(name: string, rtype: string, data: string, line: string)

  /** recordMatches, on a record that is not an SOA. */
  predicate IsMatch(rr: RR, name: string, rtype: string, data: string) {
    !rr.SoaRR? && View(rr).name == name && View(rr).rtype == rtype && View(rr).data == data
  }

  /** Position of the first matching non-SOA record, or |rrs|. */
  function FirstMatch(rrs: seq<RR>, name: string, rtype: string, data: string): (k: nat)
    ensures k <= |rrs|
    ensures k < |rrs| ==> IsMatch(rrs[k], name, rtype, data)
    ensures forall i :: 0 <= i < k ==> !IsMatch(rrs[i], name, rtype, data)
  {
    if rrs == [] || IsMatch(rrs[0], name, rtype, data) then 0 else 1 + FirstMatch(rrs[1..], name, rtype, data)
  }

  lemma FirstMatchIs(rrs: seq<RR>, name: string, rtype: string, data: string, k: nat)
    requires k <= |rrs| && forall j :: 0 <= j < k ==> !IsMatch(rrs[j], name, rtype, data)
    requires k < |rrs| ==> IsMatch(rrs[k], name, rtype, data)
    ensures FirstMatch(rrs, name, rtype, data) == k
  {
    hide IsMatch;
  }

  /** The record an editable line denotes; an SOA is refused. */
  function Editable(line: string, origin: string): Result<RR> {
    match NewRR(line, origin)
    case Err(e) => Err(e)
    case Ok(rr) => if rr.SoaRR? then Err("the SOA record is managed automatically") else Ok(rr)
  }

  function Apply(z: ZoneData, e: Edit): ZoneData {
    match e
    case AddLine(line) =>
      var rr := Editable(line, z.origin);
      if rr.Err? then z else z.(records := z.records + [rr.value])
    case RemoveMatch(name, rtype, data) =>
      var k := FirstMatch(z.records, name, rtype, data);
      if k == |z.records| then z else z.(records := z.records[..k] + z.records[k + 1..])
    case ReplaceMatch(name, rtype, data, line) =>
      var rr := Editable(line, z.origin);
      var k := FirstMatch(z.records, name, rtype, data);
      if rr.Err? || k == |z.records| then z else z.(records := z.records[k := rr.value])
  }

  function ApplyAll(z: ZoneData, edits: seq<Edit>): ZoneData
    decreases |edits|
  {
    if edits == [] then z else ApplyAll(Apply(z, edits[0]), edits[1..])
  }

  /** The SOA records of a zone, in order. */
  function Soas(rrs: seq<RR>): seq<RR> {
    if rrs == [] then [] else (if rrs[0].SoaRR? then [rrs[0]] else []) + Soas(rrs[1..])
  }

  lemma SoasCons(rr: RR, rest: seq<RR>)
    ensures Soas([rr] + rest) == (if rr.SoaRR? then [rr] else []) + Soas(rest)
  {
    assert ([rr] + rest)[1..] == rest;
  }

  lemma {:induction false} SoasConcat(a: seq<RR>, b: seq<RR>)
    ensures Soas(a + b) == Soas(a) + Soas(b)
  {
    if a == [] {
      assert a + b == b;
    } else {
      var rest, first := a[1..] + b, if a[0].SoaRR? then [a[0]] else [];
      assert a + b == [a[0]] + rest;
      SoasConcat(a[1..], b);
      SoasCons(a[0], rest);
      hide Soas;
      assert first + (Soas(a[1..]) + Soas(b)) == (first + Soas(a[1..])) + Soas(b);
      SoasCons(a[0], a[1..]);
      assert [a[0]] + a[1..] == a;
    }
  }

  lemma EditKeepsSoas(z: ZoneData, e: Edit)
    ensures Soas(Apply(z, e).records) == Soas(z.records)
    ensures Apply(z, e).origin == z.origin
  {
    var rrs := z.records;
    ApplyKeepsOrigin(z, e);
    hide Soas, NewRR, IsMatch, FirstMatch, View;
    match e
    case AddLine(line) =>
      var rr := Editable(line, z.origin);
      if rr.Ok? { AddedSoas(rrs, rr.value); }
    case RemoveMatch(name, rtype, data) =>
      var k := FirstMatch(rrs, name, rtype, data);
      RemovedAt(z, name, rtype, data);
      hide Apply;
      if k < |rrs| {
        MatchIsData(rrs, name, rtype, data);
        SoasAround(rrs, k);
        SoasConcat(rrs[..k], rrs[k + 1..]);
      }
    case ReplaceMatch(name, rtype, data, line) =>
      var rr := Editable(line, z.origin);
      var k := FirstMatch(rrs, name, rtype, data);
      ReplacedAt(z, name, rtype, data, line);
      hide Apply;
      if rr.Ok? && k < |rrs| {
        MatchIsData(rrs, name, rtype, data);
        ReplacedSoas(rrs, k, rr.value);
      }
  }

  lemma ApplyKeepsOrigin(z: ZoneData, e: Edit)
    ensures Apply(z, e).origin == z.origin
  {
    hide FirstMatch, Editable;
  }

  lemma MatchIsData(rrs: seq<RR>, name: string, rtype: string, data: string)
    ensures var k := FirstMatch(rrs, name, rtype, data); k < |rrs| ==> rrs[k].DataRR?
  {
    hide View;
  }

  lemma AddedSoas(rrs: seq<RR>, rr: RR)
    requires rr.DataRR?
    ensures Soas(rrs + [rr]) == Soas(rrs)
  {
    SoasConcat(rrs, [rr]);
    assert Soas([rr]) == [];
  }

  lemma ReplacedSoas(rrs: seq<RR>, k: nat, rr: RR)
    requires k < |rrs| && rrs[k].DataRR? && rr.DataRR?
    ensures Soas(rrs[k := rr]) == Soas(rrs)
  {
    hide Soas;
    var after := rrs[k := rr];
    assert after[..k] == rrs[..k] && after[k + 1..] == rrs[k + 1..];
    SoasAround(rrs, k);
    SoasAround(after, k);
  }

  lemma Around(rrs: seq<RR>, k: nat)
    requires k < |rrs|
    ensures rrs == rrs[..k] + ([rrs[k]] + rrs[k + 1..])
  {
  }

  /** A data record in the middle contributes nothing. */
  lemma SoasAround(rrs: seq<RR>, k: nat)
    requires k < |rrs| && rrs[k].DataRR?
    ensures Soas(rrs) == Soas(rrs[..k]) + Soas(rrs[k + 1..])
  {
    hide Soas;
    Around(rrs, k);
    SoasConcat(rrs[..k], [rrs[k]] + rrs[k + 1..]);
    SoasCons(rrs[k], rrs[k + 1..]);
    assert [] + Soas(rrs[k + 1..]) == Soas(rrs[k + 1..]);
  }

  lemma {:induction false} SerialComesFromSoas(rrs: seq<RR>)
    ensures SoaIndex(rrs) < |rrs| <==> Soas(rrs) != []
    ensures Soas(rrs) != [] ==> rrs[SoaIndex(rrs)] == Soas(rrs)[0]
  {
    if rrs != [] && rrs[0].DataRR? { SerialComesFromSoas(rrs[1..]); }
  }

  /** Which records match: a record other than an SOA with that owner, that name for its type and
      that data as it prints. */
  lemma MatchesExactly(rr: RR, name: string, rtype: string, data: string)
    ensures IsMatch(rr, name, rtype, data)
       <==> rr.DataRR? && rr.owner == name && rr.data == data
            && rtype == if IsPrivate(rr.rtype) then "" else rr.rtype
  {
    hide IsPrivate;
  }

  /** The first match is at k, or none before k matches and k is the end. */
  lemma FirstMatchExactly(rrs: seq<RR>, name: string, rtype: string, data: string)
    ensures var k := FirstMatch(rrs, name, rtype, data);
            && (k < |rrs| ==>
                  && rrs[k].DataRR? && rrs[k].owner == name && rrs[k].data == data
                  && rtype == Mnemonic(rrs[k].rtype))
            && (forall j :: 0 <= j < k ==>
                  !(rrs[j].DataRR? && rrs[j].owner == name && rrs[j].data == data && rtype == Mnemonic(rrs[j].rtype)))
  {
    var k := FirstMatch(rrs, name, rtype, data);
    hide IsMatch, FirstMatch, IsPrivate;
    forall j | 0 <= j <= k && j < |rrs|
      ensures IsMatch(rrs[j], name, rtype, data)
         <==> rrs[j].DataRR? && rrs[j].owner == name && rrs[j].data == data && rtype == Mnemonic(rrs[j].rtype)
    {
      MatchesExactly(rrs[j], name, rtype, data);
    }
  }

  /** Removal takes out exactly one record, the first non-SOA one with that owner, type and data,
      and keeps the others in order; without one nothing changes. */
  lemma RemoveTakesFirst(z: ZoneData, name: string, rtype: string, data: string) returns (k: nat)
    ensures var rrs, out := z.records, Apply(z, RemoveMatch(name, rtype, data)).records;
            && k <= |rrs|
            && (forall j :: 0 <= j < k ==>
                    !(rrs[j].DataRR? && rrs[j].owner == name && rrs[j].data == data && rtype == Mnemonic(rrs[j].rtype)))
            && (k < |rrs| ==>
                    && rrs[k].DataRR? && rrs[k].owner == name && rrs[k].data == data
                    && rtype == Mnemonic(rrs[k].rtype))
            && out == if k < |rrs| then rrs[..k] + rrs[k + 1..] else rrs
  {
    k := FirstMatch(z.records, name, rtype, data);
    FirstMatchExactly(z.records, name, rtype, data);
    RemovedAt(z, name, rtype, data);
    hide IsMatch, FirstMatch, Apply, Mnemonic;
  }

  /** Replacement changes exactly one position, that of the first non-SOA record with that owner,
      type and data; a refused line or no such record changes nothing. */
  lemma ReplaceChangesOne(z: ZoneData, name: string, rtype: string, data: string, line: string) returns (k: nat)
    ensures var rrs, out := z.records, Apply(z, ReplaceMatch(name, rtype, data, line)).records;
            && k <= |rrs|
            && (forall j :: 0 <= j < k ==>
                    !(rrs[j].DataRR? && rrs[j].owner == name && rrs[j].data == data && rtype == Mnemonic(rrs[j].rtype)))
            && (k < |rrs| ==>
                    && rrs[k].DataRR? && rrs[k].owner == name && rrs[k].data == data
                    && rtype == Mnemonic(rrs[k].rtype))
            && out == if k < |rrs| && Editable(line, z.origin).Ok?
                        then rrs[k := Editable(line, z.origin).value] else rrs
  {
    k := FirstMatch(z.records, name, rtype, data);
    FirstMatchExactly(z.records, name, rtype, data);
    ReplacedAt(z, name, rtype, data, line);
    hide IsMatch, FirstMatch, Apply, Mnemonic, Editable;
  }

  lemma ReplacedAt(z: ZoneData, name: string, rtype: string, data: string, line: string)
    ensures var rrs, k := z.records, FirstMatch(z.records, name, rtype, data);
            (Apply(z, ReplaceMatch(name, rtype, data, line)).records
             == if k < |rrs| && Editable(line, z.origin).Ok? then rrs[k := Editable(line, z.origin).value] else rrs)
  {
    hide Editable, IsMatch, FirstMatch;
  }

  lemma RemovedAt(z: ZoneData, name: string, rtype: string, data: string)
    ensures var rrs, k := z.records, FirstMatch(z.records, name, rtype, data);
            (Apply(z, RemoveMatch(name, rtype, data)).records
             == if k < |rrs| then rrs[..k] + rrs[k + 1..] else rrs)
  {
    hide IsMatch, FirstMatch;
  }

  /** Any sequence of edits keeps the SOA records, hence the SOA data and the serial, and
      keeps every record well formed. */
  lemma EditsKeepSoa(z: ZoneData, edits: seq<Edit>)
    requires WellFormedZone(z)
    ensures var z' := ApplyAll(z, edits);
            && z'.origin == z.origin
            && Soas(z'.records) == Soas(z.records)
            && (HasSoa(z) ==> HasSoa(z') && SoaOf(z') == SoaOf(z))
            && (forall rr <- z'.records :: WellFormed(rr))
            && (HasSoa(z) ==> WellFormedZone(z'))
  {
    hide WellFormed, IsFqdnName, Apply;
    SerialComesFromSoas(z.records);
    SerialComesFromSoas(ApplyAll(z, edits).records);
    EditsKeepSoas(z, edits);
  }

  lemma {:induction false} EditsKeepSoas(z: ZoneData, edits: seq<Edit>)
    requires IsFqdnName(SkipBlanks(z.origin)) && forall rr <- z.records :: WellFormed(rr)
    ensures var z' := ApplyAll(z, edits);
            z'.origin == z.origin && Soas(z'.records) == Soas(z.records) && forall rr <- z'.records :: WellFormed(rr)
    decreases |edits|
  {
    hide WellFormed, IsFqdnName, Apply, Soas;
    if edits != [] {
      EditKeepsSoas(z, edits[0]);
      EditKeepsWellFormed(z, edits[0]);
      EditsKeepSoas(Apply(z, edits[0]), edits[1..]);
    }
  }

  lemma EditKeepsWellFormed(z: ZoneData, e: Edit)
    requires IsFqdnName(SkipBlanks(z.origin)) && forall rr <- z.records :: WellFormed(rr)
    ensures forall rr <- Apply(z, e).records :: WellFormed(rr)
  {
    if e.AddLine? || e.ReplaceMatch? {
      EditableIsWellFormed(e.line, z.origin);
    }
  }

  lemma EditableIsWellFormed(line: string, origin: string)
    requires IsFqdnName(SkipBlanks(origin))
    ensures Editable(line, origin).Ok? ==> WellFormed(Editable(line, origin).value)
  {
    NameIsPlain(SkipBlanks(origin));
    SkipBlanksHold(origin, '\n');
    NewRRWellFormed(line, origin);
    hide NewRR;
  }

  // ---------------------------------------------------------------------
  // The zone object
  // ---------------------------------------------------------------------

  class Zone {
    var origin: string
    var records: seq<RR>

    function Contents(): ZoneData
      reads this
    {
      ZoneData(origin, records)
    }

    constructor (origin: string, records: seq<RR>)
      ensures Contents() == ZoneData(origin, records)
    {
      this.origin := origin;
      this.records := records;
    }

    /** soa: the first SOA record. */
    method FindSoa() returns (k: nat)
      ensures k == SoaIndex(records)
    {
      k := 0;
      while k < |records|
        invariant k <= |records|
        invariant SoaIndex(records) == k + SoaIndex(records[k..])
      {
        if records[k].SoaRR? {
          return;
        }
        assert records[k..][1..] == records[k + 1..];
        k := k + 1;
      }
    }

    method ReadSerial() returns (r: Result<uint32>)
      ensures r == if HasSoa(Contents()) then Ok(SoaOf(Contents()).serial) else Err("zone has no SOA record")
    {
      var k := FindSoa();
      if k == |records| {
        return Err("zone has no SOA record");
      }
      return Ok(records[k].serial);
    }

    /** The zone's SOA settings. */
    method ReadSoaData() returns (r: Result<SoaData>)
      ensures r == if HasSoa(Contents()) then Ok(SoaOf(Contents())) else Err("zone has no SOA record")
    {
      var k := FindSoa();
      if k == |records| {
        return Err("zone has no SOA record");
      }
      var s := records[k];
      return Ok(SoaData(s.ns, s.mbox, s.refresh, s.retry, s.expire, s.minimum, s.ttl, s.serial));
    }

    /** Overwrites the serial of the first SOA in place. */
    method BumpSerial(policy: Policy, now: Instant) returns (r: Result<(uint32, uint32)>)
      modifies this
      ensures !HasSoa(old(Contents())) ==> r.Err? && Contents() == old(Contents())
      ensures HasSoa(old(Contents())) ==>
                var before := SoaOf(old(Contents())).serial;
                var after := NextSerial(policy, before, now);
                r == Ok((before, after)) && Contents() == WithSerial(old(Contents()), after)
      ensures r.Ok? ==>
                var (before, after) := r.value;
                var next, seconds := (before + 1) % 0x1_0000_0000, now.unix % 0x1_0000_0000;
                var date := (now.year * 1_000_000 + now.month * 10_000 + now.day * 100) % 0x1_0000_0000;
                && (policy == "increment" ==> after == next)
                && (policy == "unixtime" ==> after == if seconds > before then seconds else next)
                && (policy != "increment" && policy != "unixtime" ==> after == if date > before then date else next)
      ensures r.Ok? ==>
                exists k ::
                  && 0 <= k < |old(records)| && old(records)[k].SoaRR? && old(records)[k].serial == r.value.0
                  && (forall j :: 0 <= j < k ==> old(records)[j].DataRR?)
                  && origin == old(origin) && records == old(records)[k := old(records)[k].(serial := r.value.1)]
    {
      hide NextSerial;
      var k := FindSoa();
      if k == |records| {
        return Err("zone has no SOA record");
      }
      var oldSerial := records[k].serial;
      PoliciesByName(policy, oldSerial, now);
      var newSerial := NextSerial(policy, oldSerial, now);
      records := records[k := records[k].(serial := newSerial)];
      return Ok((oldSerial, newSerial));
    }

    method Render() returns (text: string)
      ensures text == RenderText(Contents())
    {
      text := "$ORIGIN " + origin + "\n";
      var k := 0;
      while k < |records|
        invariant k <= |records|
        invariant text + RRLines(records[k..]) == RenderText(Contents())
      {
        assert RRLines(records[k..]) == RRLine(records[k]) + "\n" + RRLines(records[k..][1..]);
        assert records[k..][1..] == records[k + 1..];
        text := text + RRLine(records[k]) + "\n";
        k := k + 1;
      }
    }

    /** The editable rows: every record but the SOA. */
    method DataRecords() returns (out: seq<Record>)
      ensures out == DataRecordsOf(records)
    {
      out := [];
      var k := 0;
      while k < |records|
        invariant k <= |records|
        invariant out + DataRecordsOf(records[k..]) == DataRecordsOf(records)
      {
        assert records[k..][1..] == records[k + 1..];
        var r := View(records[k]);
        if r.rtype != "SOA" {
          out := out + [r];
        }
        k := k + 1;
      }
    }

    method Add(line: string) returns (err: Option<string>)
      modifies this
      ensures Contents() == Apply(old(Contents()), AddLine(line))
      ensures err.Some? <==> Editable(line, old(origin)).Err?
      ensures err.None? ==> records == old(records) + [Editable(line, origin).value]
    {
      var rr := NewRR(line, origin);
      if rr.Err? {
        return Some(rr.error);
      }
      if rr.value.SoaRR? {
        return Some("the SOA record is managed automatically");
      }
      records := records + [rr.value];
      return None;
    }

    /** Reports whether there was a record to take out. */
    method Remove(name: string, rtype: string, data: string) returns (removed: bool)
      modifies this
      ensures Contents() == Apply(old(Contents()), RemoveMatch(name, rtype, data))
      ensures removed <==> exists rr <- old(records) ::
                rr.DataRR? && rr.owner == name && rr.data == data && rtype == Mnemonic(rr.rtype)
    {
      forall rr ensures IsMatch(rr, name, rtype, data)
                   <==> rr.DataRR? && rr.owner == name && rr.data == data && rtype == Mnemonic(rr.rtype)
      {
        MatchesExactly(rr, name, rtype, data);
      }
      var i := 0;
      while i < |records|
        invariant i <= |records|
        invariant records == old(records) && origin == old(origin)
        invariant forall j :: 0 <= j < i ==> !IsMatch(records[j], name, rtype, data)
      {
        if !records[i].SoaRR? {
          var r := View(records[i]);
          if r.name == name && r.rtype == rtype && r.data == data {
            assert IsMatch(records[i], name, rtype, data);
            assert FirstMatch(records, name, rtype, data) == i;
            records := records[..i] + records[i + 1..];
            return true;
          }
        }
        i := i + 1;
      }
      return false;
    }

    /** Reports whether there was a record to change; a bad line or an SOA line is an error. */
    method Replace(name: string, rtype: string, data: string, newLine: string) returns (r: Result<bool>)
      modifies this
      ensures Contents() == Apply(old(Contents()), ReplaceMatch(name, rtype, data, newLine))
      ensures r.Err? <==> Editable(newLine, old(origin)).Err?
      ensures r.Ok? ==>
                (r.value <==> exists rr <- old(records) ::
                   rr.DataRR? && rr.owner == name && rr.data == data && rtype == Mnemonic(rr.rtype))
    {
      forall rr ensures IsMatch(rr, name, rtype, data)
                   <==> rr.DataRR? && rr.owner == name && rr.data == data && rtype == Mnemonic(rr.rtype)
      {
        MatchesExactly(rr, name, rtype, data);
      }
      hide NewRR, IsMatch, Mnemonic;
      var rr := NewRR(newLine, origin);
      if rr.Err? {
        return Err(rr.error);
      }
      if rr.value.SoaRR? {
        return Err("the SOA record is managed automatically");
      }
      var found := ReplaceFirst(name, rtype, data, rr.value);
      return Ok(found);
    }

    /** The loop of Replace: puts rr in place of the first match. */
    method ReplaceFirst(name: string, rtype: string, data: string, rr: RR) returns (found: bool)
      modifies this`records
      ensures var k := FirstMatch(old(records), name, rtype, data);
              && (found <==> k < |old(records)|)
              && records == if found then old(records)[k := rr] else old(records)
    {
      hide Rdata, FirstMatch;
      var i := 0;
      while i < |records|
        invariant i <= |records|
        invariant records == old(records)
        invariant forall j :: 0 <= j < i ==> !IsMatch(records[j], name, rtype, data)
      {
        if !records[i].SoaRR? {
          var v := View(records[i]);
          if v.name == name && v.rtype == rtype && v.data == data {
            assert IsMatch(records[i], name, rtype, data);
            FirstMatchIs(records, name, rtype, data, i);
            records := records[i := rr];
            return true;
          }
        }
        i := i + 1;
      }
      FirstMatchIs(records, name, rtype, data, i);
      return false;
    }
  }

  /** What is read of the whole is what has been read and what the rest reads as. */
  predicate Continues(whole: Scanned, records: seq<RR>, rest: Scanned) {
    whole == Scanned(records + rest.records, rest.ok)
  }

  lemma ContinuesFrom(lines: seq<string>, origin: string)
    ensures Continues(Scan(lines, origin, None), [], Scan(lines[0..], origin, None))
  {
    assert lines[0..] == lines;
    hide Scan;
  }

  lemma ContinuesToEnd(whole: Scanned, records: seq<RR>, origin: string, defaultTtl: Option<uint32>)
    requires Continues(whole, records, Scan([], origin, defaultTtl))
    ensures whole == Scanned(records, true)
  {
    ScanNothing(origin, defaultTtl);
    hide Scan;
  }

  lemma ContinuesPast(lines: seq<string>, k: nat, origin: string, defaultTtl: Option<uint32>, whole: Scanned,
                      records: seq<RR>)
    requires k < |lines| && Continues(whole, records, Scan(lines[k..], origin, defaultTtl))
    ensures var e := ReadLine(lines[k], origin, defaultTtl);
            if e.Malformed? then !whole.ok
            else Continues(whole, records + (if e.Resource? then [e.rr] else []),
                           Scan(lines[k + 1..], if e.Origin? then e.name else origin,
                                if e.DefaultTtl? then Some(e.ttl) else defaultTtl))
  {
    hide ReadLine, Scan;
    ScanOnce(lines[k..], origin, defaultTtl);
    assert lines[k..][0] == lines[k] && lines[k..][1..] == lines[k + 1..];
  }

  /** zone.Parse: collects records line by line until the text ends or a line is malformed. */
  method ParseContent(content: string, origin: string) returns (r: Result<ZoneData>)
    ensures r == ParseText(content, origin)
  {
    hide ReadLine, Split, Scan, Continues;
    var o := Fqdn(origin);
    var lines := Split(content, '\n');
    var records: seq<RR> := [];
    var current, defaultTtl := o, None;
    var k := 0;
    ContinuesFrom(lines, o);
    while k < |lines|
      invariant k <= |lines|
      invariant Continues(Scan(lines, o, None), records, Scan(lines[k..], current, defaultTtl))
    {
      ContinuesPast(lines, k, current, defaultTtl, Scan(lines, o, None), records);
      assert records + [] == records;
      match ReadLine(lines[k], current, defaultTtl) {
        case Blank =>
        case Origin(name) => current := name;
        case DefaultTtl(ttl) => defaultTtl := Some(ttl);
        case Resource(rr) => records := records + [rr];
        case Malformed => return Err("parse zone");
      }
      k := k + 1;
    }
    assert lines[k..] == [];
    ContinuesToEnd(Scan(lines, o, None), records, current, defaultTtl);
    if records == [] {
      return Err("no records");
    }
    return Ok(ZoneData(o, records));
  }

  /** The lines Build prints for the rows. */
  method PrintRows(recs: seq<Record>, ttl: uint32) returns (body: string)
    ensures body == BuildLines(recs, ttl)
  {
    hide RecordLine;
    body := "";
    var k := 0;
    while k < |recs|
      invariant k <= |recs|
      invariant body + BuildLines(recs[k..], ttl) == BuildLines(recs, ttl)
    {
      assert recs[k..][1..] == recs[k + 1..];
      var rttl, owner := recs[k].ttl, recs[k].name;
      if rttl == 0 {
        rttl := ttl;
      }
      if owner == "" {
        owner := "@";
      }
      assert BuildLines(recs[k..], ttl) == BuildLine(recs[k], ttl) + "\n" + BuildLines(recs[k + 1..], ttl);
      body := body + RecordLine(' ', owner, rttl, recs[k].rtype, recs[k].data) + "\n";
      k := k + 1;
    }
  }

  /** zone.Build: prints settings and rows, then parses the text. */
  method Build(origin: string, soa: SoaData, recs: seq<Record>) returns (r: Result<ZoneData>)
    ensures r == BuildZone(origin, soa, recs)
    ensures GoodSettings(origin, soa) && (forall rec <- recs :: Printable(rec)) ==>
              r == Ok(RequestedZone(origin, soa, recs))
  {
    var ttl := soa.ttl;
    if ttl == 0 {
      ttl := 3600;
    }
    var rows := PrintRows(recs, ttl);
    r := ParseContent("$ORIGIN " + Fqdn(origin) + "\n"
                      + ("$TTL " + Dec(ttl) + "\n" + (BuildSoaLine(soa) + "\n" + rows)), origin);
    if GoodSettings(origin, soa) && forall rec <- recs :: Printable(rec) {
      BuildParses(origin, soa, recs);
    }
  }
}
