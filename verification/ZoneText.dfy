/**
 Zone-file text: what Build and Render print, and a parser for that dialect
 (section 5.1 of RFC 1035 restricted to one line per entry, class IN, no escapes,
 comments only in SOA data, opaque record data outside the SOA).
 */
module ZoneText {
  import opened Text
  import opened Serial

  // ---------------------------------------------------------------------
  // Data
  // ---------------------------------------------------------------------

  /** A parsed resource record. */
  datatype RR =
    | SoaRR(owner: string, ttl: uint32, ns: string, mbox: string, serial: uint32,
            refresh: uint32, retry: uint32, expire: uint32, minimum: uint32)
    | DataRR(owner: string, ttl: uint32, rtype: string, data: string)
  {
    function Type(): string {
      if SoaRR? then "SOA" else rtype
    }
  }

  /** A parsed zone: an absolute origin and its records in file order. */
  datatype ZoneData = ZoneData(origin: string, records: seq<RR>)

  /** The SOA fields a zone's settings carry. */
  datatype SoaData = SoaData(primaryNS: string, mbox: string, refresh: uint32, retry: uint32,
                             expire: uint32, minimum: uint32, ttl: uint32, serial: uint32)

  /** The presentation view of one record; its class is always IN. */
  datatype Record = Record(name: string, ttl: uint32, rtype: string, data: string)

  // ---------------------------------------------------------------------
  // Names
  // ---------------------------------------------------------------------

  predicate IsNameChar(c: char) {
    !IsSpace(c) && c != '(' && c != ')' && c != ';' && c != '"' && c != '\\'
  }

  /** A domain name token of the dialect, absolute or relative; "@" is one. */
  predicate IsName(s: string) {
    s != "" && s[0] != '$' && forall i :: 0 <= i < |s| ==> IsNameChar(s[i])
  }

  predicate IsAbsolute(s: string) {
    s != "" && s[|s| - 1] == '.'
  }

  predicate IsFqdnName(s: string) {
    IsName(s) && IsAbsolute(s)
  }

  /** dns.Fqdn on names without escapes. */
  function Fqdn(s: string): string {
    if IsAbsolute(s) then s else s + "."
  }

  /** The name in force after "$ORIGIN " and a zone's name: leading blanks are skipped. */
  function Apex(origin: string): string {
    SkipBlanks(Fqdn(origin))
  }

  /** Resolution of an owner against the origin in force. */
  function Resolve(name: string, origin: string): string {
    if name == "@" then origin
    else if IsAbsolute(name) then name
    else if origin == "." then name + "."
    else name + "." + origin
  }

  lemma ResolveIsFqdn(name: string, origin: string)
    requires IsName(name) && IsFqdnName(origin)
    ensures IsFqdnName(Resolve(name, origin))
  {
  }

  /** A type given by its number (section 5 of RFC 3597). */
  predicate IsNumbered(s: string) {
    |s| > 4 && s[..4] == "TYPE" && AllDigits(s[4..])
  }

  /** One of the private-use range (section 3.1 of RFC 6895), which has no mnemonic. */
  predicate IsPrivate(s: string) {
    IsNumbered(s) && 65280 <= DecValue(s[4..]) <= 65534
  }

  /** A record type: a mnemonic of capitals, digits and hyphens that is no class mnemonic, or
      the number of a private type. */
  predicate IsType(s: string) {
    && s != "" && 'A' <= s[0] <= 'Z'
    && (forall i :: 0 <= i < |s| ==> 'A' <= s[i] <= 'Z' || IsDigit(s[i]) || s[i] == '-')
    && s != "IN" && s != "CH" && s != "HS" && s != "CS" && s != "NONE" && s != "ANY"
    && (IsNumbered(s) ==> IsPrivate(s))
  }

  /** A type that dns.TypeToString knows. */
  predicate IsMnemonic(s: string) {
    IsType(s) && !IsPrivate(s)
  }

  /** dns.TypeToString: a type without mnemonic gives the map's zero value. */
  function Mnemonic(rtype: string): string {
    if IsPrivate(rtype) then "" else rtype
  }

  /** Record data on a single line, without surrounding white space. */
  predicate IsData(s: string) {
    s != "" && '\n' !in s && !IsSpace(s[0]) && !IsSpace(s[|s| - 1])
  }

  /** The form in which data of a type without mnemonic is written (section 5 of RFC 3597). */
  predicate IsGeneric(s: string) {
    IsData(s) && |s| > 1 && s[0] == '\\' && s[1] == '#'
  }

  predicate IsDataOf(rtype: string, data: string) {
    IsData(data) && (IsPrivate(rtype) ==> IsGeneric(data))
  }

  /** The canonical form of a parsed record. */
  predicate WellFormed(rr: RR) {
    && IsFqdnName(rr.owner)
    && (rr.SoaRR? ==> IsFqdnName(rr.ns) && IsFqdnName(rr.mbox))
    && (rr.DataRR? ==> IsType(rr.rtype) && rr.rtype != "SOA" && IsDataOf(rr.rtype, rr.data))
  }

  predicate WellFormedZone(z: ZoneData) {
    && IsFqdnName(SkipBlanks(z.origin))
    && z.records != []
    && forall i :: 0 <= i < |z.records| ==> WellFormed(z.records[i])
  }

  // ---------------------------------------------------------------------
  // Printing
  // ---------------------------------------------------------------------

  function RecordLine(sep: char, owner: string, ttl: uint32, rtype: string, data: string): string {
    Cell(owner, sep, Cell(Dec(ttl), sep, Cell("IN", sep, Cell(rtype, sep, data))))
  }

  function SoaNumbers(serial: uint32, refresh: uint32, retry: uint32, expire: uint32, minimum: uint32): seq<string> {
    [Dec(serial), Dec(refresh), Dec(retry), Dec(expire), Dec(minimum)]
  }

  /** The RDATA portion of a record's presentation form. */
  function Rdata(rr: RR): string {
    match rr
    case SoaRR(_, _, ns, mbox, serial, refresh, retry, expire, minimum) =>
      Join([ns, mbox] + SoaNumbers(serial, refresh, retry, expire, minimum), ' ')
    case DataRR(_, _, _, data) => data
  }

  function RRLine(rr: RR): string {
    RecordLine('\t', rr.owner, rr.ttl, rr.Type(), Rdata(rr))
  }

  function RRLines(rrs: seq<RR>): string {
    if rrs == [] then "" else RRLine(rrs[0]) + "\n" + RRLines(rrs[1..])
  }

  function RenderText(z: ZoneData): string {
    "$ORIGIN " + z.origin + "\n" + RRLines(z.records)
  }

  /** The mailbox form of an e-mail address: the first '@' becomes a dot. */
  function DnsMbox(s: string): string {
    Fqdn(ReplaceFirstAt(s))
  }

  function ReplaceFirstAt(s: string): string {
    if s == "" then "" else if s[0] == '@' then "." + s[1..] else [s[0]] + ReplaceFirstAt(s[1..])
  }

  function EffectiveTtl(soa: SoaData): uint32 {
    if soa.ttl == 0 then 3600 else soa.ttl
  }

  function BuildSoaLine(soa: SoaData): string {
    RecordLine(' ', "@", EffectiveTtl(soa), "SOA",
               Join([Fqdn(soa.primaryNS), DnsMbox(soa.mbox)] + ["("]
                    + SoaNumbers(soa.serial, soa.refresh, soa.retry, soa.expire, soa.minimum) + [")"], ' '))
  }

  function BuildLine(r: Record, zoneTtl: uint32): string {
    RecordLine(' ', if r.name == "" then "@" else r.name, if r.ttl == 0 then zoneTtl else r.ttl, r.rtype, r.data)
  }

  function BuildLines(recs: seq<Record>, zoneTtl: uint32): string {
    if recs == [] then "" else BuildLine(recs[0], zoneTtl) + "\n" + BuildLines(recs[1..], zoneTtl)
  }

  function BuildText(origin: string, soa: SoaData, recs: seq<Record>): string {
    "$ORIGIN " + Fqdn(origin) + "\n"
    + ("$TTL " + Dec(EffectiveTtl(soa)) + "\n"
       + (BuildSoaLine(soa) + "\n" + BuildLines(recs, EffectiveTtl(soa))))
  }

  // ---------------------------------------------------------------------
  // Parsing
  // ---------------------------------------------------------------------

  function NoParens(ws: seq<string>): seq<string> {
    if ws == [] then []
    else if ws[0] == "(" || ws[0] == ")" then NoParens(ws[1..])
    else [ws[0]] + NoParens(ws[1..])
  }

  function ReadUint32(s: string): (r: Option<uint32>) {
    if AllDigits(s) && DecValue(s) < WORD then Some(DecValue(s)) else None
  }

  /** A line up to its comment. */
  function Uncomment(s: string): string {
    if s == "" || s[0] == ';' then "" else [s[0]] + Uncomment(s[1..])
  }

  function ReadSoa(owner: string, ttl: uint32, data: string, origin: string): Option<RR> {
    var ws := NoParens(Words(Uncomment(data)));
    if |ws| != 7 || !IsName(ws[0]) || !IsName(ws[1]) then None
    else
      var n2, n3, n4 := ReadUint32(ws[2]), ReadUint32(ws[3]), ReadUint32(ws[4]);
      var n5, n6 := ReadUint32(ws[5]), ReadUint32(ws[6]);
      if n2.None? || n3.None? || n4.None? || n5.None? || n6.None? then None
      else Some(SoaRR(owner, ttl, Resolve(ws[0], origin), Resolve(ws[1], origin),
                      n2.value, n3.value, n4.value, n5.value, n6.value))
  }

  /** The fields of a record line, before they are interpreted. */
  datatype Fields = Fields(owner: string, ttl: Option<uint32>, rtype: string, data: string)

  /** owner [ttl] [IN] type rdata; an omitted TTL is the $TTL default. */
  function ReadFields(line: string, defaultTtl: Option<uint32>): Fields {
    var (owner, afterOwner) := NextToken(line);
    var (second, afterSecond) := NextToken(afterOwner);
    var hasTtl := AllDigits(second);
    var afterTtl := if hasTtl then afterSecond else afterOwner;
    var (third, afterThird) := NextToken(afterTtl);
    var (rtype, rest) := NextToken(if third == "IN" then afterThird else afterTtl);
    Fields(owner, if hasTtl then ReadUint32(second) else defaultTtl, rtype, TrimBlanksRight(rest))
  }

  function Interpret(f: Fields, origin: string): Option<RR> {
    if !IsName(f.owner) || f.ttl.None? || !IsType(f.rtype) || !IsDataOf(f.rtype, f.data) then None
    else if f.rtype == "SOA" then ReadSoa(Resolve(f.owner, origin), f.ttl.value, f.data, origin)
    else Some(DataRR(Resolve(f.owner, origin), f.ttl.value, f.rtype, f.data))
  }

  datatype Entry = Blank | Origin(name: string) | DefaultTtl(ttl: uint32) | Resource(rr: RR) | Malformed

  function ReadLine(line: string, origin: string, defaultTtl: Option<uint32>): Entry {
    if SkipBlanks(line) == "" then Blank
    else if line[0] == '$' then
      var (directive, rest) := NextToken(line);
      var arg := TrimBlanksRight(rest);
      if directive == "$ORIGIN" && IsName(arg) then Origin(Resolve(arg, origin))
      else if directive == "$TTL" && ReadUint32(arg).Some? then DefaultTtl(ReadUint32(arg).value)
      else Malformed
    else
      var rr := Interpret(ReadFields(line, defaultTtl), origin);
      if rr.None? then Malformed else Resource(rr.value)
  }

  /** The records read up to the first malformed line, and whether there was none. */
  datatype Scanned = Scanned(records: seq<RR>, ok: bool)

  function Scan(lines: seq<string>, origin: string, defaultTtl: Option<uint32>): Scanned {
    if lines == [] then Scanned([], true)
    else
      match ReadLine(lines[0], origin, defaultTtl)
      case Blank => Scan(lines[1..], origin, defaultTtl)
      case Origin(o) => Scan(lines[1..], o, defaultTtl)
      case DefaultTtl(t) => Scan(lines[1..], origin, Some(t))
      case Resource(rr) => var more := Scan(lines[1..], origin, defaultTtl); Scanned([rr] + more.records, more.ok)
      case Malformed => Scanned([], false)
  }

  function ScanText(content: string, origin: string): Scanned {
    Scan(Split(content, '\n'), origin, None)
  }

  /** zone.Parse. */
  function ParseText(content: string, origin: string): Result<ZoneData> {
    var o := Fqdn(origin);
    var s := ScanText(content, o);
    if !s.ok then Err("parse zone")
    else if s.records == [] then Err("no records")
    else Ok(ZoneData(o, s.records))
  }

  /** zone.Build. */
  function BuildZone(origin: string, soa: SoaData, recs: seq<Record>): Result<ZoneData> {
    ParseText(BuildText(origin, soa, recs), origin)
  }

  /** newRRWithOrigin (internal/zone/edit.go): the first record of the line, unless a second
      one follows. An error after the first record goes unnoticed. */
  function NewRR(line: string, origin: string): Result<RR> {
    var o := Fqdn(origin);
    var s := ScanText("$ORIGIN " + o + "\n" + ("$TTL " + Dec(3600) + "\n" + (line + "\n")), o);
    if s.records == [] then Err(if s.ok then "no record found" else "invalid record")
    else if |s.records| > 1 then Err("expected exactly one record")
    else Ok(s.records[0])
  }

  function ToUpperChar(c: char): char {
    if 'a' <= c <= 'z' then (c as int - 'a' as int + 'A' as int) as char else c
  }

  function ToUpper(s: string): (r: string)
    ensures |r| == |s|
  {
    seq(|s|, i requires 0 <= i < |s| => ToUpperChar(s[i]))
  }

  function NormalizeLine(name: string, ttl: uint32, rtype: string, data: string): string {
    RecordLine(' ', if name == "" then "@" else name, if ttl == 0 then 3600 else ttl,
               ToUpper(TrimSpace(rtype)), TrimSpace(data))
  }

  /** zone.NormalizeRecord. */
  function NormalizeRecord(origin: string, name: string, ttl: uint32, rtype: string, data: string): Result<Record> {
    match NewRR(NormalizeLine(name, ttl, rtype, data), origin)
    case Err(e) => Err(e)
    case Ok(rr) =>
      if rr.SoaRR? then Err("the SOA record is managed via zone settings")
      else Ok(View(rr))
  }

  // ---------------------------------------------------------------------
  // Views of a zone
  // ---------------------------------------------------------------------

  function View(rr: RR): Record {
    Record(rr.owner, rr.ttl, Mnemonic(rr.Type()), Rdata(rr))
  }

  function DataRecordsOf(rrs: seq<RR>): (r: seq<Record>) {
    if rrs == [] then []
    else if View(rrs[0]).rtype == "SOA" then DataRecordsOf(rrs[1..])
    else [View(rrs[0])] + DataRecordsOf(rrs[1..])
  }

  /** Position of the first SOA record, or |rrs| when there is none. */
  function SoaIndex(rrs: seq<RR>): (k: nat)
    ensures k <= |rrs|
    ensures k < |rrs| ==> rrs[k].SoaRR?
    ensures forall i :: 0 <= i < k ==> rrs[i].DataRR?
  {
    if rrs == [] || rrs[0].SoaRR? then 0 else 1 + SoaIndex(rrs[1..])
  }

  predicate HasSoa(z: ZoneData) {
    SoaIndex(z.records) < |z.records|
  }

  function SoaOf(z: ZoneData): SoaData
    requires HasSoa(z)
  {
    var s := z.records[SoaIndex(z.records)];
    SoaData(s.ns, s.mbox, s.refresh, s.retry, s.expire, s.minimum, s.ttl, s.serial)
  }

  /** The zone with its first SOA record carrying another serial. */
  function WithSerial(z: ZoneData, serial: uint32): ZoneData
    requires HasSoa(z)
  {
    var k := SoaIndex(z.records);
    z.(records := z.records[k := z.records[k].(serial := serial)])
  }

  /** The shape of a zone assembled by Build from stored rows: one SOA at the apex, then data
      records with mnemonic types, and no zero TTL. */
  predicate IsBuilt(z: ZoneData, origin: string) {
    && WellFormedZone(z)
    && z.origin == Fqdn(origin)
    && z.records[0].SoaRR? && z.records[0].owner == SkipBlanks(z.origin)
    && (forall i :: 0 <= i < |z.records| ==> z.records[i].ttl > 0)
    && (forall i :: 1 <= i < |z.records| ==> z.records[i].DataRR? && !IsPrivate(z.records[i].rtype))
  }
}
