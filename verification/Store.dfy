/**
 The SQLite store of internal/store/store.go on values: three tables, autoincrement ids,
 cascading deletes, and every SQL statement (or transaction) as one atomic step.
 */
module Store {
  import opened Text
  import opened Serial
  import opened ZoneText
  import opened Seqs

  // ---------------------------------------------------------------------
  // Tables
  // ---------------------------------------------------------------------

  /** A row of the zones table; targets is the joined text column. */
  datatype ZoneRow = ZoneRow(soa: SoaData, targets: string)

  datatype RecordRow = RecordRow(id: nat, zone: string, rec: Record)

  datatype SnapRow = SnapRow(id: nat, zone: string, serial: uint32, content: string)

  /** Record and snapshot rows are kept in id order; the counters are AUTOINCREMENT's. */
  datatype Db = Db(zones: map<string, ZoneRow>, records: seq<RecordRow>, snapshots: seq<SnapRow>,
                   lastRecord: nat, lastSnap: nat, keep: nat)

  // WHERE clauses.

  function RowIn(zone: string): RecordRow -> bool {
    (r: RecordRow) => r.zone == zone
  }

  function RowOutside(zone: string): RecordRow -> bool {
    (r: RecordRow) => r.zone != zone
  }

  function RowOther(zone: string, id: nat): RecordRow -> bool {
    (r: RecordRow) => !(r.id == id && r.zone == zone)
  }

  function SnapIn(zone: string): SnapRow -> bool {
    (s: SnapRow) => s.zone == zone
  }

  function SnapOutside(zone: string): SnapRow -> bool {
    (s: SnapRow) => s.zone != zone
  }

  function SnapIs(zone: string, id: nat): SnapRow -> bool {
    (s: SnapRow) => s.id == id && s.zone == zone
  }

  /** zone <> z OR id IN newest. */
  function SnapKept(zone: string, newest: set<nat>): SnapRow -> bool {
    (s: SnapRow) => s.zone != zone || s.id in newest
  }

  function RowsOf(db: Db, zone: string): seq<RecordRow> {
    Filter(db.records, RowIn(zone))
  }

  /** A zone's snapshots, oldest first. */
  function SnapsOf(db: Db, zone: string): seq<SnapRow> {
    Filter(db.snapshots, SnapIn(zone))
  }

  // ---------------------------------------------------------------------
  // Statements
  // ---------------------------------------------------------------------

  datatype Stmt =
    | InsertZone(zone: string, row: ZoneRow)
    | ImportTx(zone: string, row: ZoneRow, recs: seq<Record>)
    | UpdateSettings(zone: string, row: ZoneRow)
    | SetSerial(zone: string, serial: uint32)
    | DeleteZone(zone: string)
    | InsertRecord(zone: string, rec: Record)
    | UpdateRecord(zone: string, id: nat, rec: Record)
    | DeleteRecord(zone: string, id: nat)
    | InsertSnapshot(zone: string, serial: uint32, content: string)
    | PruneSnapshots(zone: string)
    | RestoreTx(zone: string, soa: SoaData, recs: seq<Record>)

  /** Rows for recs with consecutive new ids. */
  function NewRows(zone: string, recs: seq<Record>, lastId: nat): (rows: seq<RecordRow>)
    ensures |rows| == |recs|
    ensures forall i :: 0 <= i < |rows| ==> rows[i] == RecordRow(lastId + 1 + i, zone, recs[i])
  {
    seq(|recs|, i requires 0 <= i < |recs| => RecordRow(lastId + 1 + i, zone, recs[i]))
  }

  function ReplaceRec(rows: seq<RecordRow>, zone: string, id: nat, rec: Record): (out: seq<RecordRow>)
    ensures |out| == |rows|
    ensures forall i :: 0 <= i < |rows| ==>
              out[i] == if rows[i].id == id && rows[i].zone == zone then RecordRow(id, zone, rec) else rows[i]
  {
    seq(|rows|, i requires 0 <= i < |rows| =>
          if rows[i].id == id && rows[i].zone == zone then RecordRow(id, zone, rec) else rows[i])
  }

  function IdsOf(snaps: seq<SnapRow>): set<nat> {
    set s | s in snaps :: s.id
  }

  /** SELECT id FROM snapshots WHERE zone=? ORDER BY id DESC LIMIT keep. */
  function NewestIds(db: Db, zone: string): set<nat> {
    IdsOf(Last(SnapsOf(db, zone), db.keep))
  }

  /** The database after a statement; one that violates a constraint changes nothing. */
  function Exec(db: Db, stmt: Stmt): Db {
    match stmt
    case InsertZone(zone, row) =>
      if zone in db.zones then db else db.(zones := db.zones[zone := row])
    case ImportTx(zone, row, recs) =>
      if zone in db.zones then db
      else db.(zones := db.zones[zone := row],
               records := db.records + NewRows(zone, recs, db.lastRecord), lastRecord := db.lastRecord + |recs|)
    case UpdateSettings(zone, row) =>
      if zone !in db.zones then db
      else db.(zones := db.zones[zone := row.(soa := row.soa.(serial := db.zones[zone].soa.serial))])
    case SetSerial(zone, serial) =>
      if zone !in db.zones then db
      else db.(zones := db.zones[zone := db.zones[zone].(soa := db.zones[zone].soa.(serial := serial))])
    case DeleteZone(zone) =>
      db.(zones := db.zones - {zone},
          records := Filter(db.records, RowOutside(zone)),
          snapshots := Filter(db.snapshots, SnapOutside(zone)))
    case InsertRecord(zone, rec) =>
      if zone !in db.zones then db
      else db.(records := db.records + [RecordRow(db.lastRecord + 1, zone, rec)], lastRecord := db.lastRecord + 1)
    case UpdateRecord(zone, id, rec) =>
      db.(records := ReplaceRec(db.records, zone, id, rec))
    case DeleteRecord(zone, id) =>
      db.(records := Filter(db.records, RowOther(zone, id)))
    case InsertSnapshot(zone, serial, content) =>
      if zone !in db.zones then db
      else db.(snapshots := db.snapshots + [SnapRow(db.lastSnap + 1, zone, serial, content)],
               lastSnap := db.lastSnap + 1)
    case PruneSnapshots(zone) =>
      db.(snapshots := Filter(db.snapshots, SnapKept(zone, NewestIds(db, zone))))
    case RestoreTx(zone, soa, recs) =>
      if zone !in db.zones then db
      else
        var rest := Filter(db.records, RowOutside(zone));
        db.(zones := db.zones[zone := db.zones[zone].(soa := soa)],
            records := rest + NewRows(zone, recs, db.lastRecord), lastRecord := db.lastRecord + |recs|)
  }

  function ExecAll(db: Db, stmts: seq<Stmt>): Db
    decreases |stmts|
  {
    if stmts == [] then db else Exec(ExecAll(db, stmts[..|stmts| - 1]), stmts[|stmts| - 1])
  }

  // ---------------------------------------------------------------------
  // Queries
  // ---------------------------------------------------------------------

  /** ORDER BY name, type, id. */
  predicate RowLe(a: RecordRow, b: RecordRow) {
    || TextLess(a.rec.name, b.rec.name)
    || (a.rec.name == b.rec.name
        && (TextLess(a.rec.rtype, b.rec.rtype) || (a.rec.rtype == b.rec.rtype && a.id <= b.id)))
  }

  function InsertSorted(r: RecordRow, rows: seq<RecordRow>): seq<RecordRow> {
    if rows == [] || RowLe(r, rows[0]) then [r] + rows else [rows[0]] + InsertSorted(r, rows[1..])
  }

  function SortRows(rows: seq<RecordRow>): seq<RecordRow> {
    if rows == [] then [] else InsertSorted(rows[0], SortRows(rows[1..]))
  }

  function RecsOf(rows: seq<RecordRow>): seq<Record> {
    seq(|rows|, i requires 0 <= i < |rows| => rows[i].rec)
  }

  /** Store.Records: the zone's rows in display order. */
  function Records(db: Db, zone: string): seq<RecordRow> {
    SortRows(RowsOf(db, zone))
  }

  /** Store.Build, given the settings row and the record rows its two queries returned. */
  function BuildFrom(zone: string, row: ZoneRow, rows: seq<RecordRow>): Result<ZoneData> {
    BuildZone(zone, row.soa, RecsOf(rows))
  }

  function BuildDb(db: Db, zone: string): Result<ZoneData> {
    if zone !in db.zones then Err("not found") else BuildFrom(zone, db.zones[zone], Records(db, zone))
  }

  function LastSnapshot(db: Db, zone: string): Option<SnapRow> {
    var snaps := SnapsOf(db, zone);
    if snaps == [] then None else Some(snaps[|snaps| - 1])
  }

  /** Store.Dirty. */
  function Dirty(db: Db, zone: string): bool {
    var last := LastSnapshot(db, zone);
    var built := BuildDb(db, zone);
    last.None? || built.Err? || RenderText(built.value) != last.value.content
  }

  /** The statements of Store.Publish, in order. */
  function PublishStmts(zone: string, content: string, serial: uint32): seq<Stmt> {
    [SetSerial(zone, serial), InsertSnapshot(zone, serial, content), PruneSnapshots(zone)]
  }

  /** Store.RestoreSnapshot: the transaction it runs, or why it does not. */
  function RestorePlan(db: Db, zone: string, id: nat): Result<Stmt> {
    var found := Filter(db.snapshots, SnapIs(zone, id));
    if found == [] then Err("not found")
    else
      match ParseText(found[0].content, zone)
      case Err(e) => Err("parse snapshot: " + e)
      case Ok(z) =>
        if !HasSoa(z) then Err("zone has no SOA record")
        else Ok(RestoreTx(zone, SoaOf(z), DataRecordsOf(z.records)))
  }

  function RestoreSnapshot(db: Db, zone: string, id: nat): Db {
    var plan := RestorePlan(db, zone, id);
    if plan.Ok? then Exec(db, plan.value) else db
  }

  // ---------------------------------------------------------------------
  // Settings
  // ---------------------------------------------------------------------

  function OrDefault(n: uint32, default: uint32): uint32 {
    if n == 0 then default else n
  }

  /** applyDefaults. */
  function WithDefaults(soa: SoaData): SoaData {
    soa.(refresh := OrDefault(soa.refresh, 7200), retry := OrDefault(soa.retry, 3600),
         expire := OrDefault(soa.expire, 1209600), minimum := OrDefault(soa.minimum, 3600),
         ttl := OrDefault(soa.ttl, 3600))
  }

  function JoinTargets(targets: seq<string>): string {
    Join(targets, ',')
  }

  /** The targets column: names with commas between them. */
  lemma TargetsColumn(target: string, rest: seq<string>)
    ensures JoinTargets([]) == "" && JoinTargets([target]) == target
    ensures rest != [] ==> JoinTargets([target] + rest) == target + "," + JoinTargets(rest)
  {
    assert ([target] + rest)[1..] == rest;
  }

  function TrimNonEmpty(parts: seq<string>): seq<string> {
    if parts == [] then []
    else
      var p := TrimSpace(parts[0]);
      (if p != "" then [p] else []) + TrimNonEmpty(parts[1..])
  }

  function SplitTargets(s: string): seq<string> {
    TrimNonEmpty(Split(s, ','))
  }

  /** Reading it: what stands before the first comma, without outer white space, if anything is
      left of it; then the rest. */
  lemma TargetsSplit(target: string, rest: string)
    requires ',' !in target
    ensures SplitTargets(target) == if TrimSpace(target) == "" then [] else [TrimSpace(target)]
    ensures SplitTargets(target + "," + rest) == SplitTargets(target) + SplitTargets(rest)
  {
    SplitNone(target, ',');
    SplitFirst(target, ',', rest);
    var own, all := [target], [target] + Split(rest, ',');
    assert own[1..] == [] && all[1..] == Split(rest, ',') && TrimNonEmpty([]) == [];
    hide Split, TrimSpace;
  }

  /** Server names that survive the targets column. */
  predicate IsTargetName(t: string) {
    t != "" && ',' !in t && !IsSpace(t[0]) && !IsSpace(t[|t| - 1])
  }

  /** The targets column is lossless. */
  lemma {:induction false} TargetsRoundTrip(targets: seq<string>)
    requires forall t <- targets :: IsTargetName(t)
    ensures SplitTargets(JoinTargets(targets)) == targets
  {
    if targets == [] {
      assert Split("", ',') == [""];
      assert TrimNonEmpty([""]) == TrimNonEmpty([""][1..]) by { TrimSpaceKeeps(""); }
    } else {
      var t := targets[0];
      assert t in targets;
      TrimSpaceKeeps(t);
      if |targets| == 1 {
        SplitNone(t, ',');
        assert TrimNonEmpty([t]) == [t] + TrimNonEmpty([t][1..]);
        assert [t] == targets;
      } else {
        SplitFirst(t, ',', JoinTargets(targets[1..]));
        TargetsRoundTrip(targets[1..]);
        var rest := Split(JoinTargets(targets[1..]), ',');
        assert TrimNonEmpty([t] + rest) == [t] + TrimNonEmpty(([t] + rest)[1..]);
        assert ([t] + rest)[1..] == rest;
      }
    }
  }
}
