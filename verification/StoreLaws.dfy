/**
 What every statement keeps: increasing ids, referential integrity, and the other zones.
 */
module StoreLaws {
  import opened ZoneText
  import opened Seqs
  import opened Store

  // ---------------------------------------------------------------------
  // Integrity
  // ---------------------------------------------------------------------

  ghost predicate IdsIncrease(db: Db) {
    && (forall i, j :: 0 <= i < j < |db.records| ==> db.records[i].id < db.records[j].id)
    && (forall r <- db.records :: r.id <= db.lastRecord)
    && (forall i, j :: 0 <= i < j < |db.snapshots| ==> db.snapshots[i].id < db.snapshots[j].id)
    && (forall s <- db.snapshots :: s.id <= db.lastSnap)
  }

  /** Every record and snapshot belongs to an existing zone. */
  ghost predicate NoOrphans(db: Db) {
    && (forall r <- db.records :: r.zone in db.zones)
    && (forall s <- db.snapshots :: s.zone in db.zones)
  }

  ghost predicate Integrity(db: Db) {
    IdsIncrease(db) && NoOrphans(db)
  }

  lemma FiltersKeepIds(db: Db, f: RecordRow -> bool, g: SnapRow -> bool)
    requires IdsIncrease(db)
    ensures IdsIncrease(db.(records := Filter(db.records, f), snapshots := Filter(db.snapshots, g)))
  {
    FilterKeepsOrder(db.records, f, (r: RecordRow) => r.id);
    FilterKeepsOrder(db.snapshots, g, (s: SnapRow) => s.id);
    FilterMembers(db.records, f);
    FilterMembers(db.snapshots, g);
  }

  function WithNewRows(db: Db, zone: string, recs: seq<Record>): Db {
    db.(records := db.records + NewRows(zone, recs, db.lastRecord), lastRecord := db.lastRecord + |recs|)
  }

  lemma NewRowsKeepIds(db: Db, zone: string, recs: seq<Record>)
    requires IdsIncrease(db)
    ensures IdsIncrease(WithNewRows(db, zone, recs))
  {
    var added := NewRows(zone, recs, db.lastRecord);
    var all := db.records + added;
    forall i, j | 0 <= i < j < |all| ensures all[i].id < all[j].id {
      if i < |db.records| <= j { assert db.records[i] in db.records; }
    }
  }

  /** Every statement keeps ids increasing and leaves no orphan. */
  lemma ExecKeepsIntegrity(db: Db, stmt: Stmt)
    requires Integrity(db)
    ensures Integrity(Exec(db, stmt))
  {
    ExecKeepsIds(db, stmt);
    ExecKeepsReferences(db, stmt);
  }

  lemma ExecKeepsIds(db: Db, stmt: Stmt)
    requires IdsIncrease(db)
    ensures IdsIncrease(Exec(db, stmt))
  {
    hide IdsIncrease, Filter, NewestIds;
    var everyRow, everySnap := (r: RecordRow) => true, (s: SnapRow) => true;
    match stmt
    case DeleteZone(zone) =>
      FiltersKeepIds(db, RowOutside(zone), SnapOutside(zone));
      SameTablesKeepIds(
        db.(records := Filter(db.records, RowOutside(zone)), snapshots := Filter(db.snapshots, SnapOutside(zone))),
        Exec(db, stmt));
    case DeleteRecord(zone, id) =>
      FilterAll(db.snapshots, everySnap);
      FiltersKeepIds(db, RowOther(zone, id), everySnap);
    case PruneSnapshots(zone) =>
      FilterAll(db.records, everyRow);
      FiltersKeepIds(db, everyRow, SnapKept(zone, NewestIds(db, zone)));
    case RestoreTx(zone, soa, recs) =>
      FilterAll(db.snapshots, everySnap);
      FiltersKeepIds(db, RowOutside(zone), everySnap);
      var rest := db.(records := Filter(db.records, RowOutside(zone)));
      NewRowsKeepIds(rest, zone, recs);
      if zone in db.zones { SameTablesKeepIds(WithNewRows(rest, zone, recs), Exec(db, stmt)); }
    case ImportTx(zone, row, recs) =>
      NewRowsKeepIds(db, zone, recs);
      if zone !in db.zones { SameTablesKeepIds(WithNewRows(db, zone, recs), Exec(db, stmt)); }
    case InsertRecord(zone, rec) => NewRowsKeepIds(db, zone, [rec]);
      assert NewRows(zone, [rec], db.lastRecord) == [RecordRow(db.lastRecord + 1, zone, rec)];
    case UpdateRecord(zone, id, rec) => ReplaceKeepsIds(db, zone, id, rec);
    case InsertSnapshot(zone, serial, content) => SnapshotKeepsIds(db, SnapRow(db.lastSnap + 1, zone, serial, content));
    case _ => SameTablesKeepIds(db, Exec(db, stmt));
  }

  lemma SnapshotKeepsIds(db: Db, s: SnapRow)
    requires IdsIncrease(db) && s.id == db.lastSnap + 1
    ensures IdsIncrease(db.(snapshots := db.snapshots + [s], lastSnap := s.id))
  {
    forall i | 0 <= i < |db.snapshots| ensures db.snapshots[i].id < s.id {
      assert db.snapshots[i] in db.snapshots;
    }
  }

  lemma SameTablesKeepIds(a: Db, b: Db)
    requires IdsIncrease(a) && b == a.(zones := b.zones)
    ensures IdsIncrease(b)
  {
  }

  lemma ReplaceKeepsIds(db: Db, zone: string, id: nat, rec: Record)
    requires IdsIncrease(db)
    ensures IdsIncrease(db.(records := ReplaceRec(db.records, zone, id, rec)))
  {
    forall r | r in ReplaceRec(db.records, zone, id, rec) ensures r.id <= db.lastRecord {
      var i :| 0 <= i < |db.records| && ReplaceRec(db.records, zone, id, rec)[i] == r;
      assert db.records[i] in db.records;
    }
  }

  lemma ExecKeepsReferences(db: Db, stmt: Stmt)
    requires NoOrphans(db)
    ensures NoOrphans(Exec(db, stmt))
  {
    match stmt
    case DeleteZone(zone) =>
      FilterMembers(db.records, RowOutside(zone));
      FilterMembers(db.snapshots, SnapOutside(zone));
    case DeleteRecord(zone, id) =>
      FilterMembers(db.records, RowOther(zone, id));
    case PruneSnapshots(zone) =>
      var newest := NewestIds(db, zone);
      FilterMembers(db.snapshots, SnapKept(zone, newest));
    case RestoreTx(zone, soa, recs) =>
      FilterMembers(db.records, RowOutside(zone));
    case UpdateRecord(zone, id, rec) =>
      forall r | r in ReplaceRec(db.records, zone, id, rec) ensures r.zone in db.zones {
        var i :| 0 <= i < |db.records| && ReplaceRec(db.records, zone, id, rec)[i] == r;
        assert db.records[i] in db.records;
      }
    case _ =>
  }

  /** Over any run of statements on an empty database. */
  lemma {:induction false} RunsKeepIntegrity(db: Db, stmts: seq<Stmt>)
    requires Integrity(db)
    ensures Integrity(ExecAll(db, stmts))
    decreases |stmts|
  {
    if stmts != [] {
      RunsKeepIntegrity(db, stmts[..|stmts| - 1]);
      ExecKeepsIntegrity(ExecAll(db, stmts[..|stmts| - 1]), stmts[|stmts| - 1]);
    }
  }

  // ---------------------------------------------------------------------
  // Isolation
  // ---------------------------------------------------------------------

  /** Everything the store holds about one zone. */
  ghost predicate SameZone(a: Db, b: Db, zone: string) {
    && (zone in a.zones <==> zone in b.zones)
    && (zone in a.zones ==> a.zones[zone] == b.zones[zone])
    && RowsOf(a, zone) == RowsOf(b, zone)
    && SnapsOf(a, zone) == SnapsOf(b, zone)
  }

  lemma {:induction false} ReplaceRecElsewhere(rows: seq<RecordRow>, zone: string, id: nat, rec: Record, other: string)
    requires other != zone
    ensures Filter(ReplaceRec(rows, zone, id, rec), RowIn(other))
         == Filter(rows, RowIn(other))
  {
    if rows != [] {
      var front := rows[..|rows| - 1];
      assert ReplaceRec(rows, zone, id, rec)[..|rows| - 1] == ReplaceRec(front, zone, id, rec);
      ReplaceRecElsewhere(front, zone, id, rec, other);
    }
  }

  lemma FilterRowsElsewhere(rows: seq<RecordRow>, f: RecordRow -> bool, other: string)
    requires forall r <- rows :: r.zone == other ==> f(r)
    ensures Filter(Filter(rows, f), RowIn(other)) == Filter(rows, RowIn(other))
  {
    var g := RowIn(other);
    FilterFilter(rows, f, g);
    FilterAgree(rows, Both(f, g), g);
  }

  lemma FilterSnapsElsewhere(snaps: seq<SnapRow>, f: SnapRow -> bool, other: string)
    requires forall s <- snaps :: s.zone == other ==> f(s)
    ensures Filter(Filter(snaps, f), SnapIn(other)) == Filter(snaps, SnapIn(other))
  {
    var g := SnapIn(other);
    FilterFilter(snaps, f, g);
    FilterAgree(snaps, Both(f, g), g);
  }

  /** A statement on one zone leaves every other zone unchanged. */
  lemma Isolation(db: Db, stmt: Stmt, other: string)
    requires stmt.zone != other
    ensures SameZone(db, Exec(db, stmt), other)
  {
    var mine := RowIn(other);
    match stmt
    case DeleteZone(zone) =>
      FilterRowsElsewhere(db.records, RowOutside(zone), other);
      FilterSnapsElsewhere(db.snapshots, SnapOutside(zone), other);
    case DeleteRecord(zone, id) =>
      FilterRowsElsewhere(db.records, RowOther(zone, id), other);
    case PruneSnapshots(zone) =>
      var newest := NewestIds(db, zone);
      FilterSnapsElsewhere(db.snapshots, SnapKept(zone, newest), other);
    case RestoreTx(zone, soa, recs) =>
      var f := RowOutside(zone);
      FilterRowsElsewhere(db.records, f, other);
      NewRowsElsewhere(Filter(db.records, f), zone, recs, db.lastRecord, other);
    case ImportTx(zone, row, recs) => NewRowsElsewhere(db.records, zone, recs, db.lastRecord, other);
    case InsertRecord(zone, rec) => FilterSnoc(db.records, RecordRow(db.lastRecord + 1, zone, rec), mine);
    case InsertSnapshot(zone, serial, content) =>
      FilterSnoc(db.snapshots, SnapRow(db.lastSnap + 1, zone, serial, content), SnapIn(other));
    case UpdateRecord(zone, id, rec) => ReplaceRecElsewhere(db.records, zone, id, rec, other);
    case _ =>
  }

  lemma NewRowsElsewhere(rows: seq<RecordRow>, zone: string, recs: seq<Record>, lastId: nat, other: string)
    requires zone != other
    ensures Filter(rows + NewRows(zone, recs, lastId), RowIn(other))
         == Filter(rows, RowIn(other))
  {
    FilterConcat(rows, NewRows(zone, recs, lastId), RowIn(other));
    FilterNone(NewRows(zone, recs, lastId), RowIn(other));
  }
}
