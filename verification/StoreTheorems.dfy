/**
 Snapshot retention over any interleaving of statements, the display order, and the restore
 round trip.
 */
module StoreTheorems {
  import opened Text
  import opened Serial
  import opened ZoneText
  import opened ZoneLaws
  import opened Settings
  import opened UnknownTypes
  import opened Seqs
  import opened Store
  import opened StoreLaws

  // ---------------------------------------------------------------------
  // Retention
  // ---------------------------------------------------------------------

  datatype Pub = Pub(serial: uint32, content: string)

  function PubsOf(snaps: seq<SnapRow>): seq<Pub> {
    seq(|snaps|, i requires 0 <= i < |snaps| => Pub(snaps[i].serial, snaps[i].content))
  }

  /** A database with the history of one zone: everything published since the zone was
      created, and how many of those inserts have not been followed by a prune. */
  datatype Tracked = Tracked(db: Db, history: seq<Pub>, unpruned: nat)

  function Track(t: Tracked, zone: string, stmt: Stmt): Tracked {
    var db := Exec(t.db, stmt);
    if stmt.zone != zone then t.(db := db)
    else
      match stmt
      case InsertZone(_, _) => if zone in t.db.zones then t.(db := db) else Tracked(db, [], 0)
      case ImportTx(_, _, _) => if zone in t.db.zones then t.(db := db) else Tracked(db, [], 0)
      case DeleteZone(_) => Tracked(db, [], 0)
      case InsertSnapshot(_, serial, content) =>
        if zone in t.db.zones then Tracked(db, t.history + [Pub(serial, content)], t.unpruned + 1) else t.(db := db)
      case PruneSnapshots(_) => Tracked(db, t.history, 0)
      case _ => t.(db := db)
  }

  function TrackAll(t: Tracked, zone: string, stmts: seq<Stmt>): Tracked
    decreases |stmts|
  {
    if stmts == [] then t else Track(TrackAll(t, zone, stmts[..|stmts| - 1]), zone, stmts[|stmts| - 1])
  }

  /** The zone's snapshots are its most recent publishes: at least as many as are to be
      kept, and no more than those plus the inserts not yet pruned. */
  ghost predicate Retained(t: Tracked, zone: string) {
    var snaps := SnapsOf(t.db, zone);
    && Integrity(t.db)
    && (zone !in t.db.zones ==> t.history == [])
    && PubsOf(snaps) == Last(t.history, |snaps|)
    && |snaps| >= (if |t.history| <= t.db.keep then |t.history| else t.db.keep)
    && |snaps| <= t.db.keep + t.unpruned
  }

  lemma SnapsNeedZone(db: Db, zone: string)
    requires NoOrphans(db) && zone !in db.zones
    ensures SnapsOf(db, zone) == []
  {
    FilterNone(db.snapshots, SnapIn(zone));
  }

  /** With increasing ids, the newest k ids are those of the last k rows. */
  lemma NewestAreLast(snaps: seq<SnapRow>, k: nat, i: nat)
    requires forall i, j :: 0 <= i < j < |snaps| ==> snaps[i].id < snaps[j].id
    requires i < |snaps|
    ensures snaps[i].id in IdsOf(Last(snaps, k)) <==> |snaps| - k <= i
  {
    var b := Last(snaps, k);
    var base := |snaps| - |b|;
    if base <= i {
      assert b[i - base] == snaps[i] && b[i - base] in b;
    } else {
      forall s | s in b ensures s.id != snaps[i].id {
        var j :| 0 <= j < |b| && b[j] == s;
        assert snaps[base + j] == s;
      }
    }
  }

  /** Pruning leaves exactly the newest keep snapshots of the zone. */
  lemma PruneKeepsNewest(db: Db, zone: string)
    requires IdsIncrease(db)
    ensures SnapsOf(Exec(db, PruneSnapshots(zone)), zone) == Last(SnapsOf(db, zone), db.keep)
  {
    var f, g, snaps := SnapKept(zone, NewestIds(db, zone)), SnapIn(zone), SnapsOf(db, zone);
    hide Filter, Last, IdsOf;
    FilterCommutes(db.snapshots, f, g);
    FilterKeepsOrder(db.snapshots, g, (s: SnapRow) => s.id);
    FilterMembers(db.snapshots, g);
    forall i | 0 <= i < |snaps| ensures f(snaps[i]) <==> |snaps| - db.keep <= i {
      NewestAreLast(snaps, db.keep, i);
      assert snaps[i] in snaps;
    }
    FilterSuffix(snaps, db.keep, f);
  }

  lemma FilterCommutes(snaps: seq<SnapRow>, f: SnapRow -> bool, g: SnapRow -> bool)
    ensures Filter(Filter(snaps, f), g) == Filter(Filter(snaps, g), f)
  {
    FilterFilter(snaps, f, g);
    FilterFilter(snaps, g, f);
    FilterAgree(snaps, Both(f, g), Both(g, f));
  }

  lemma TrackKeepsRetained(t: Tracked, zone: string, stmt: Stmt)
    requires Retained(t, zone)
    ensures Retained(Track(t, zone, stmt), zone)
  {
    hide Exec, SnapsOf, Integrity, PubsOf, Last;
    ExecKeepsIntegrity(t.db, stmt);
    if stmt.zone != zone {
      Isolation(t.db, stmt, zone);
      ExecKeepsKeep(t.db, stmt);
    } else {
      TrackOwn(t, zone, stmt);
    }
  }

  lemma ExecKeepsKeep(db: Db, stmt: Stmt)
    ensures Exec(db, stmt).keep == db.keep
  {
  }

  /** What a statement on the zone itself does to its snapshots. */
  lemma OwnSnaps(db: Db, zone: string, stmt: Stmt)
    requires Integrity(db) && stmt.zone == zone
    ensures SnapsOf(Exec(db, stmt), zone)
         == if stmt.DeleteZone? then []
            else if stmt.PruneSnapshots? then Last(SnapsOf(db, zone), db.keep)
            else if stmt.InsertSnapshot? && zone in db.zones
              then SnapsOf(db, zone) + [SnapRow(db.lastSnap + 1, zone, stmt.serial, stmt.content)]
            else SnapsOf(db, zone)
  {
    IntegrityParts(db);
    hide Integrity, IdsIncrease, NoOrphans, Exec, SnapsOf, Last;
    match stmt
    case DeleteZone(z) => DeleteTakesSnaps(db, z);
    case PruneSnapshots(z) => PruneKeepsNewest(db, z);
    case InsertSnapshot(z, serial, content) => InsertAddsSnap(db, z, serial, content);
    case _ => OtherStatementsKeepSnaps(db, stmt);
  }

  lemma DeleteTakesSnaps(db: Db, zone: string)
    ensures SnapsOf(Exec(db, DeleteZone(zone)), zone) == []
  {
    FilterMembers(db.snapshots, SnapOutside(zone));
    FilterNone(Filter(db.snapshots, SnapOutside(zone)), SnapIn(zone));
    hide Filter;
  }

  lemma InsertAddsSnap(db: Db, zone: string, serial: uint32, content: string)
    ensures SnapsOf(Exec(db, InsertSnapshot(zone, serial, content)), zone)
         == SnapsOf(db, zone) + (if zone in db.zones then [SnapRow(db.lastSnap + 1, zone, serial, content)] else [])
  {
    FilterSnoc(db.snapshots, SnapRow(db.lastSnap + 1, zone, serial, content), SnapIn(zone));
    hide Filter;
  }

  lemma OtherStatementsKeepSnaps(db: Db, stmt: Stmt)
    requires !stmt.DeleteZone? && !stmt.PruneSnapshots? && !stmt.InsertSnapshot?
    ensures SnapsOf(Exec(db, stmt), stmt.zone) == SnapsOf(db, stmt.zone)
  {
    hide Filter, NewestIds, NewRows, ReplaceRec;
  }

  lemma IntegrityParts(db: Db)
    requires Integrity(db)
    ensures IdsIncrease(db) && NoOrphans(db)
  {
  }

  lemma PubsOfLast(snaps: seq<SnapRow>, history: seq<Pub>, k: nat)
    requires PubsOf(snaps) == Last(history, |snaps|)
    ensures PubsOf(Last(snaps, k)) == Last(history, |Last(snaps, k)|)
  {
    var a, b := PubsOf(Last(snaps, k)), Last(history, |Last(snaps, k)|);
    forall i | 0 <= i < |a| ensures a[i] == b[i] {
      assert PubsOf(snaps)[|snaps| - |a| + i] == Last(history, |snaps|)[|snaps| - |a| + i];
    }
  }

  lemma PubsOfSnoc(snaps: seq<SnapRow>, history: seq<Pub>, s: SnapRow)
    requires PubsOf(snaps) == Last(history, |snaps|)
    ensures PubsOf(snaps + [s]) == Last(history + [Pub(s.serial, s.content)], |snaps| + 1)
  {
    assert PubsOf(snaps + [s]) == PubsOf(snaps) + [Pub(s.serial, s.content)];
  }

  lemma TrackOwn(t: Tracked, zone: string, stmt: Stmt)
    requires Retained(t, zone) && stmt.zone == zone && Integrity(Exec(t.db, stmt))
    ensures Retained(Track(t, zone, stmt), zone)
  {
    hide Integrity, SnapsOf, Exec, PubsOf, Last, IdsIncrease, NoOrphans;
    OwnSnaps(t.db, zone, stmt);
    ExecKeepsKeep(t.db, stmt);
    ExecZones(t.db, stmt);
    IntegrityParts(t.db);
    if zone !in t.db.zones { SnapsNeedZone(t.db, zone); }
    var snaps := SnapsOf(t.db, zone);
    NoneLast(snaps, t.history, t.db.keep);
    if stmt.PruneSnapshots? {
      PubsOfLast(snaps, t.history, t.db.keep);
    } else if stmt.InsertSnapshot? {
      PubsOfSnoc(snaps, t.history, SnapRow(t.db.lastSnap + 1, zone, stmt.serial, stmt.content));
    }
  }

  lemma NoneLast(snaps: seq<SnapRow>, history: seq<Pub>, k: nat)
    ensures PubsOf([]) == [] == Last(history, 0)
    ensures |Last(snaps, k)| == if |snaps| <= k then |snaps| else k
  {
  }

  lemma ExecZones(db: Db, stmt: Stmt)
    ensures stmt.zone in Exec(db, stmt).zones
       <==> stmt.InsertZone? || stmt.ImportTx? || (stmt.zone in db.zones && !stmt.DeleteZone?)
  {
  }

  lemma RetainedMeans(t: Tracked, zone: string)
    requires Retained(t, zone)
    ensures t.unpruned == 0 ==> PubsOf(SnapsOf(t.db, zone)) == Last(t.history, t.db.keep)
    ensures var snaps := SnapsOf(t.db, zone); forall i, j :: 0 <= i < j < |snaps| ==> snaps[i].id < snaps[j].id
  {
    FilterKeepsOrder(t.db.snapshots, SnapIn(zone), (s: SnapRow) => s.id);
    hide Filter, NoOrphans;
  }

  /** Retention: after any sequence of statements on any zones, whenever no publish of the
      zone is between its insert and its prune, the zone's snapshots are exactly its last
      keep publishes since creation, with strictly increasing ids. */
  lemma {:induction false} Retention(t: Tracked, zone: string, stmts: seq<Stmt>)
    requires Retained(t, zone)
    ensures var t' := TrackAll(t, zone, stmts);
            && Retained(t', zone)
            && (t'.unpruned == 0 ==> PubsOf(SnapsOf(t'.db, zone)) == Last(t'.history, t.db.keep))
            && (forall i, j :: 0 <= i < j < |SnapsOf(t'.db, zone)| ==>
                  SnapsOf(t'.db, zone)[i].id < SnapsOf(t'.db, zone)[j].id)
    decreases |stmts|
  {
    if stmts != [] {
      var front := stmts[..|stmts| - 1];
      hide Track, Retained;
      Retention(t, zone, front);
      TrackKeepsRetained(TrackAll(t, zone, front), zone, stmts[|stmts| - 1]);
    }
    hide Track, TrackAll, Exec, Filter;
    KeepIsConstant(t, zone, stmts);
    RetainedMeans(TrackAll(t, zone, stmts), zone);
  }

  /** Retention from the zone's creation: where the name is free there is nothing to retain,
      and whatever statements follow, on this zone and others, the zone's snapshots are
      exactly its last publishes since it was last created. In particular on an empty
      database. */
  lemma RetentionFromCreation(db: Db, zone: string, stmts: seq<Stmt>)
    requires Integrity(db) && zone !in db.zones
    ensures var t := TrackAll(Tracked(db, [], 0), zone, stmts);
            && t.db == ExecAll(db, stmts)
            && (t.unpruned == 0 ==> PubsOf(SnapsOf(t.db, zone)) == Last(t.history, db.keep))
            && (forall i, j :: 0 <= i < j < |SnapsOf(t.db, zone)| ==>
                  SnapsOf(t.db, zone)[i].id < SnapsOf(t.db, zone)[j].id)
    ensures Integrity(Db(map[], [], [], 0, 0, db.keep))
  {
    SnapsNeedZone(db, zone);
    NoneLast([], [], db.keep);
    TrackedDb(Tracked(db, [], 0), zone, stmts);
    hide SnapsOf, TrackAll, ExecAll;
    Retention(Tracked(db, [], 0), zone, stmts);
  }

  /** Tracking a zone's history follows the database. */
  lemma {:induction false} TrackedDb(t: Tracked, zone: string, stmts: seq<Stmt>)
    ensures TrackAll(t, zone, stmts).db == ExecAll(t.db, stmts)
    decreases |stmts|
  {
    if stmts != [] {
      TrackedDb(t, zone, stmts[..|stmts| - 1]);
      hide Exec;
    }
  }

  lemma {:induction false} KeepIsConstant(t: Tracked, zone: string, stmts: seq<Stmt>)
    ensures TrackAll(t, zone, stmts).db.keep == t.db.keep
    decreases |stmts|
  {
    if stmts != [] { KeepIsConstant(t, zone, stmts[..|stmts| - 1]); }
  }

  // ---------------------------------------------------------------------
  // Display order
  // ---------------------------------------------------------------------

  ghost predicate RowsSorted(rows: seq<RecordRow>) {
    forall i, j :: 0 <= i < j < |rows| ==> RowLe(rows[i], rows[j])
  }

  lemma RowLeTotal(a: RecordRow, b: RecordRow)
    ensures RowLe(a, b) || RowLe(b, a)
  {
    TextTotal(a.rec.name, b.rec.name);
    TextTotal(a.rec.rtype, b.rec.rtype);
  }

  lemma RowLeTransitive(a: RecordRow, b: RecordRow, c: RecordRow)
    requires RowLe(a, b) && RowLe(b, c)
    ensures RowLe(a, c)
  {
    if TextLess(a.rec.name, b.rec.name) && TextLess(b.rec.name, c.rec.name) {
      TextTransitive(a.rec.name, b.rec.name, c.rec.name);
    } else if TextLess(a.rec.rtype, b.rec.rtype) && TextLess(b.rec.rtype, c.rec.rtype) {
      TextTransitive(a.rec.rtype, b.rec.rtype, c.rec.rtype);
    }
  }

  lemma {:induction false} InsertKeepsSorted(r: RecordRow, rows: seq<RecordRow>)
    requires RowsSorted(rows)
    ensures RowsSorted(InsertSorted(r, rows))
    ensures multiset(InsertSorted(r, rows)) == multiset(rows) + multiset{r}
  {
    if rows == [] {
    } else if RowLe(r, rows[0]) {
      forall j | 0 <= j < |rows| ensures RowLe(r, rows[j]) {
        if j > 0 { RowLeTransitive(r, rows[0], rows[j]); }
      }
    } else {
      RowLeTotal(r, rows[0]);
      var tail := InsertSorted(r, rows[1..]);
      InsertKeepsSorted(r, rows[1..]);
      assert rows == [rows[0]] + rows[1..];
      forall j | 0 <= j < |tail| ensures RowLe(rows[0], tail[j]) {
        assert tail[j] in multiset(tail);
        assert tail[j] == r || tail[j] in rows[1..];
      }
    }
  }

  /** Records are shown in name, type, id order, every row of the zone exactly once. */
  lemma {:induction false} SortRowsSorts(rows: seq<RecordRow>)
    ensures RowsSorted(SortRows(rows))
    ensures multiset(SortRows(rows)) == multiset(rows)
  {
    if rows != [] {
      SortRowsSorts(rows[1..]);
      InsertKeepsSorted(rows[0], SortRows(rows[1..]));
      assert rows == [rows[0]] + rows[1..];
    }
  }

  lemma {:induction false} SortKeepsSorted(rows: seq<RecordRow>)
    requires RowsSorted(rows)
    ensures SortRows(rows) == rows
  {
    if rows != [] {
      SortKeepsSorted(rows[1..]);
      assert |rows| > 1 ==> RowLe(rows[0], rows[1]);
      assert rows == [rows[0]] + rows[1..];
    }
  }

  // ---------------------------------------------------------------------
  // What a deploy publishes
  // ---------------------------------------------------------------------

  ghost predicate CanonicalRows(rows: seq<RecordRow>) {
    forall r <- rows :: Canonical(r.rec)
  }

  predicate KeyLe(a: Record, b: Record) {
    TextLess(a.name, b.name) || (a.name == b.name && (TextLess(a.rtype, b.rtype) || a.rtype == b.rtype))
  }

  ghost predicate KeySorted(recs: seq<Record>) {
    forall i, j :: 0 <= i < j < |recs| ==> KeyLe(recs[i], recs[j])
  }

  /** Text a deploy can have published: the rendering of a built zone with this serial
      whose data records are in display order. */
  ghost predicate IsPublished(zone: string, serial: uint32, content: string) {
    var p := ParseText(content, zone);
    && p.Ok?
    && IsBuilt(p.value, zone)
    && RenderText(p.value) == content
    && p.value.records[0].serial == serial
    && KeySorted(DataRecordsOf(p.value.records))
  }

  /** A canonical row's record, as Build prints it: only a zero TTL is filled in. */
  lemma RequestedOfCanonical(r: Record, origin: string, zoneTtl: uint32)
    requires Canonical(r)
    ensures Printable(r)
    ensures var v := View(Requested(r, origin, zoneTtl)); v.name == r.name && v.rtype == r.rtype
  {
    ResolveFqdnIsItself(r.name, origin);
  }

  lemma RowsPrintable(rows: seq<RecordRow>)
    requires CanonicalRows(rows)
    ensures forall i :: 0 <= i < |rows| ==> Printable(RecsOf(rows)[i]) && Canonical(RecsOf(rows)[i])
    ensures forall r <- RecsOf(rows) :: Printable(r)
  {
    hide Canonical, Printable;
    forall i | 0 <= i < |rows| ensures Printable(RecsOf(rows)[i]) && Canonical(RecsOf(rows)[i]) {
      assert rows[i] in rows;
      CanonicalIsPrintable(rows[i].rec);
    }
  }

  lemma RequestedViews(zone: string, soa: SoaData, recs: seq<Record>)
    requires GoodSettings(zone, soa) && forall r <- recs :: Printable(r)
    ensures var data := DataRecordsOf(RequestedZone(zone, soa, recs).records);
            && |data| == |recs|
            && forall i :: 0 <= i < |data| ==> data[i] == View(Requested(recs[i], Apex(zone), EffectiveTtl(soa)))
  {
    RequestedIsBuilt(zone, soa, recs);
    BuiltDataRecords(RequestedZone(zone, soa, recs), zone);
    hide GoodSettings, Printable, IsBuilt, DataRecordsOf, View, Requested, Apex;
  }

  lemma RequestedKeySorted(zone: string, soa: SoaData, rows: seq<RecordRow>)
    requires GoodSettings(zone, soa) && CanonicalRows(rows) && RowsSorted(rows)
    ensures forall r <- RecsOf(rows) :: Printable(r)
    ensures KeySorted(DataRecordsOf(RequestedZone(zone, soa, RecsOf(rows)).records))
  {
    var recs, o, ttl := RecsOf(rows), Apex(zone), EffectiveTtl(soa);
    var data := DataRecordsOf(RequestedZone(zone, soa, recs).records);
    RowsPrintable(rows);
    RequestedViews(zone, soa, recs);
    hide Canonical, Printable, GoodSettings, DataRecordsOf, View, Requested, RequestedZone, Apex, TextLess;
    forall i, j | 0 <= i < j < |data| ensures KeyLe(data[i], data[j]) {
      assert RowLe(rows[i], rows[j]);
      RequestedOfCanonical(recs[i], o, ttl);
      RequestedOfCanonical(recs[j], o, ttl);
    }
  }

  /** What handleDeploy renders from a settings row and the ordered record rows, with any
      new serial, is publishable, and its mailbox is the settings' mailbox in DNS form. */
  lemma DeployedIsPublished(zone: string, row: ZoneRow, rows: seq<RecordRow>, serial: uint32)
    requires GoodSettings(zone, row.soa) && CanonicalRows(rows) && RowsSorted(rows)
    ensures BuildFrom(zone, row, rows).Ok? && HasSoa(BuildFrom(zone, row, rows).value)
    ensures var content := RenderText(WithSerial(BuildFrom(zone, row, rows).value, serial));
            && IsPublished(zone, serial, content)
            && ParseText(content, zone) == BuildFrom(zone, row.(soa := row.soa.(serial := serial)), rows)
            && ParseText(content, zone).value.records[0].mbox == NameIn(DnsMbox(row.soa.mbox))
  {
    var recs, soa := RecsOf(rows), row.soa.(serial := serial);
    RequestedKeySorted(zone, soa, rows);
    BumpIsRebuild(zone, row.soa, recs, serial);
    BuildParses(zone, soa, recs);
    RenderParses(RequestedZone(zone, soa, recs), zone);
    hide BuildZone, ParseText, RenderText, HoldsName, NameIn, IsName, DataRecordsOf, RequestedAll, WellFormed;
  }

  // ---------------------------------------------------------------------
  // Restore
  // ---------------------------------------------------------------------

  lemma FoundById(db: Db, s: SnapRow)
    requires IdsIncrease(db) && s in db.snapshots
    ensures var found := Filter(db.snapshots, SnapIs(s.zone, s.id));
            found != [] && found[0] == s
  {
    var f := SnapIs(s.zone, s.id);
    FilterMembers(db.snapshots, f);
    var found := Filter(db.snapshots, f);
    assert s in found && found[0] in found;
    var i :| 0 <= i < |db.snapshots| && db.snapshots[i] == s;
    var j :| 0 <= j < |db.snapshots| && db.snapshots[j] == found[0];
    assert i == j;
  }

  lemma NewRowsSorted(zone: string, recs: seq<Record>, lastId: nat)
    requires KeySorted(recs)
    ensures RowsSorted(NewRows(zone, recs, lastId)) && RecsOf(NewRows(zone, recs, lastId)) == recs
  {
    var rows := NewRows(zone, recs, lastId);
    forall i, j | 0 <= i < j < |rows| ensures RowLe(rows[i], rows[j]) {
      assert KeyLe(recs[i], recs[j]);
    }
  }

  lemma RestoreStep(db: Db, zone: string, soa: SoaData, recs: seq<Record>)
    requires zone in db.zones
    ensures var db' := Exec(db, RestoreTx(zone, soa, recs));
            && db'.snapshots == db.snapshots
            && zone in db'.zones && db'.zones[zone] == db.zones[zone].(soa := soa)
            && RowsOf(db', zone) == NewRows(zone, recs, db.lastRecord)
  {
    var rows := NewRows(zone, recs, db.lastRecord);
    var rest := Filter(db.records, RowOutside(zone));
    hide Filter;
    FilterMembers(db.records, RowOutside(zone));
    FilterConcat(rest, rows, RowIn(zone));
    FilterNone(rest, RowIn(zone));
    FilterAll(rows, RowIn(zone));
    hide NewRows;
  }

  /** The restored rows come back in the snapshot's order. */
  lemma RestoredRows(db: Db, zone: string, soa: SoaData, recs: seq<Record>)
    requires zone in db.zones && KeySorted(recs)
    ensures RecsOf(Records(Exec(db, RestoreTx(zone, soa, recs)), zone)) == recs
  {
    RestoreStep(db, zone, soa, recs);
    NewRowsSorted(zone, recs, db.lastRecord);
    SortKeepsSorted(NewRows(zone, recs, db.lastRecord));
    hide Exec, SortRows, NewRows, RecsOf;
  }

  lemma PublishedPlan(db: Db, s: SnapRow)
    requires Integrity(db) && s in db.snapshots && IsPublished(s.zone, s.serial, s.content)
    ensures var z := ParseText(s.content, s.zone).value;
            && HasSoa(z) && SoaOf(z).serial == s.serial
            && RestorePlan(db, s.zone, s.id) == Ok(RestoreTx(s.zone, SoaOf(z), DataRecordsOf(z.records)))
  {
    FoundById(db, s);
    BuiltDataRecords(ParseText(s.content, s.zone).value, s.zone);
    hide ParseText, IsBuilt, DataRecordsOf, Filter;
  }

  /** A text rebuilt from a published one is the same text exactly when nothing in the
      mailbox was converted. */
  lemma RebuiltText(zone: string, z: ZoneData)
    requires IsBuilt(z, zone)
    ensures HasSoa(z)
    ensures var built := BuildZone(zone, SoaOf(z), DataRecordsOf(z.records));
            built.Ok? && (RenderText(built.value) == RenderText(z) <==> '@' !in z.records[0].mbox)
  {
    RebuildIsFixpoint(z, zone);
    RequestedOfBuilt(z, zone);
    BuildParses(zone, SoaOf(z), DataRecordsOf(z.records));
    var built := BuildZone(zone, SoaOf(z), DataRecordsOf(z.records));
    hide RenderText, ParseText, DataRecordsOf, SoaIndex, RequestedZone, GoodSettings, BuildZone;
    if RenderText(built.value) == RenderText(z) {
      RenderInjective(built.value, z);
    }
  }

  /** Restore round trip: after restoring any published snapshot the database rebuilds, with
      the snapshot's serial, and renders exactly the snapshot's text if and only if the
      snapshot's mailbox holds no '@'. Snapshots and targets are untouched. */
  lemma RestoreRoundTrip(db: Db, s: SnapRow)
    requires Integrity(db) && s in db.snapshots && IsPublished(s.zone, s.serial, s.content)
    ensures var db' := RestoreSnapshot(db, s.zone, s.id);
            && SnapsOf(db', s.zone) == SnapsOf(db, s.zone)
            && s.zone in db.zones && s.zone in db'.zones
            && db'.zones[s.zone].targets == db.zones[s.zone].targets
            && db'.zones[s.zone].soa.serial == s.serial
            && BuildDb(db', s.zone).Ok?
            && (RenderText(BuildDb(db', s.zone).value) == s.content
                <==> '@' !in ParseText(s.content, s.zone).value.records[0].mbox)
  {
    var zone, z := s.zone, ParseText(s.content, s.zone).value;
    PublishedPlan(db, s);
    RebuiltText(zone, z);
    RestoreStep(db, zone, SoaOf(z), DataRecordsOf(z.records));
    RestoredRows(db, zone, SoaOf(z), DataRecordsOf(z.records));
    assert s.zone in db.zones;
    hide RenderText, ParseText, IsBuilt, DataRecordsOf, SoaIndex, BuildZone, Records, Filter, RestorePlan, IdsIncrease,
         RecsOf, Exec, SoaOf;
  }

  lemma LastSnapshotIsThere(db: Db, zone: string)
    ensures var s := LastSnapshot(db, zone); s.Some? ==> s.value in db.snapshots && s.value.zone == zone
  {
    FilterMembers(db.snapshots, SnapIn(zone));
    var snaps := SnapsOf(db, zone);
    assert snaps != [] ==> snaps[|snaps| - 1] in snaps;
  }

  /** It is the one with the largest id. */
  lemma LastSnapshotIsNewest(db: Db, zone: string)
    requires IdsIncrease(db)
    ensures LastSnapshot(db, zone).None? <==> forall s <- db.snapshots :: s.zone != zone
    ensures LastSnapshot(db, zone).Some? ==>
              && LastSnapshot(db, zone).value in db.snapshots && LastSnapshot(db, zone).value.zone == zone
              && forall s <- db.snapshots :: s.zone == zone ==> s.id <= LastSnapshot(db, zone).value.id
  {
    FilterMembers(db.snapshots, SnapIn(zone));
    FilterKeepsOrder(db.snapshots, SnapIn(zone), (s: SnapRow) => s.id);
    assert forall s :: s in SnapsOf(db, zone) <==> s in db.snapshots && s.zone == zone;
    hide IdsIncrease, Filter;
    LastHasLargest(SnapsOf(db, zone));
  }

  lemma LastHasLargest(snaps: seq<SnapRow>)
    requires forall i, j :: 0 <= i < j < |snaps| ==> snaps[i].id < snaps[j].id
    ensures snaps != [] ==> snaps[0] in snaps && snaps[|snaps| - 1] in snaps
    ensures forall s <- snaps :: s.id <= snaps[|snaps| - 1].id
  {
    forall s | s in snaps ensures s.id <= snaps[|snaps| - 1].id {
      var i :| 0 <= i < |snaps| && snaps[i] == s;
    }
  }

  /** Restoring the newest snapshot leaves the zone clean exactly when its mailbox holds no '@'. */
  lemma RestoreNewestIsClean(db: Db, s: SnapRow)
    requires Integrity(db) && LastSnapshot(db, s.zone) == Some(s) && IsPublished(s.zone, s.serial, s.content)
    ensures !Dirty(RestoreSnapshot(db, s.zone, s.id), s.zone)
       <==> '@' !in ParseText(s.content, s.zone).value.records[0].mbox
  {
    LastSnapshotIsThere(db, s.zone);
    RestoreRoundTrip(db, s);
    hide *;
    var db' := RestoreSnapshot(db, s.zone, s.id);
    SameLastSnapshot(db, db', s.zone);
    DirtyMeans(db', s.zone);
  }

  lemma SameLastSnapshot(a: Db, b: Db, zone: string)
    requires SnapsOf(a, zone) == SnapsOf(b, zone)
    ensures LastSnapshot(a, zone) == LastSnapshot(b, zone)
  {
  }

  lemma DirtyMeans(db: Db, zone: string)
    requires LastSnapshot(db, zone).Some? && BuildDb(db, zone).Ok?
    ensures Dirty(db, zone) <==> RenderText(BuildDb(db, zone).value) != LastSnapshot(db, zone).value.content
  {
  }

  /** In the terms of whoever edits settings: a deployed text restores exactly when the
      administrator's address held at most one '@'. */
  lemma DeployedRestores(db: Db, s: SnapRow, row: ZoneRow, rows: seq<RecordRow>)
    requires Integrity(db) && s in db.snapshots
    requires SafeSettings(s.zone, row.soa) && CanonicalRows(rows) && RowsSorted(rows)
    requires BuildFrom(s.zone, row, rows).Ok? && HasSoa(BuildFrom(s.zone, row, rows).value)
    requires s.content == RenderText(WithSerial(BuildFrom(s.zone, row, rows).value, s.serial))
    ensures var db' := RestoreSnapshot(db, s.zone, s.id);
            BuildDb(db', s.zone).Ok?
            && (RenderText(BuildDb(db', s.zone).value) == s.content <==> multiset(row.soa.mbox)['@'] <= 1)
  {
    SafeExactly(s.zone, row.soa);
    DeployedIsPublished(s.zone, row, rows, s.serial);
    RestoreRoundTrip(db, s);
    MailboxFreeOfAt(row.soa.mbox);
    hide RestoreSnapshot, BuildDb, BuildFrom, ParseText, RenderText, IsBuilt, HoldsName, NameIn, DnsMbox, SafeSettings,
         Integrity, CanonicalRows, RowsSorted, WithSerial, DataRecordsOf;
  }

  /** What a restore does not give back: the mailbox the database then builds has one '@' less
      than the snapshot's, while there is one. */
  lemma RestoreConvertsOneMore(db: Db, s: SnapRow)
    requires Integrity(db) && s in db.snapshots && IsPublished(s.zone, s.serial, s.content)
    ensures var built := BuildDb(RestoreSnapshot(db, s.zone, s.id), s.zone);
            var n := multiset(ParseText(s.content, s.zone).value.records[0].mbox)['@'];
            && built.Ok? && |built.value.records| > 0 && built.value.records[0].SoaRR?
            && multiset(built.value.records[0].mbox)['@'] == if n == 0 then 0 else n - 1
  {
    var zone, z := s.zone, ParseText(s.content, s.zone).value;
    PublishedPlan(db, s);
    RebuiltMailbox(zone, z);
    RestoreStep(db, zone, SoaOf(z), DataRecordsOf(z.records));
    RestoredRows(db, zone, SoaOf(z), DataRecordsOf(z.records));
    assert s.zone in db.zones;
    hide RenderText, ParseText, IsBuilt, DataRecordsOf, SoaIndex, BuildZone, Records, Filter, RestorePlan, IdsIncrease,
         RecsOf, Exec, SoaOf;
  }

  lemma RebuiltMailbox(zone: string, z: ZoneData)
    requires IsBuilt(z, zone)
    ensures HasSoa(z)
    ensures var built := BuildZone(zone, SoaOf(z), DataRecordsOf(z.records));
            var n := multiset(z.records[0].mbox)['@'];
            && built.Ok? && |built.value.records| > 0 && built.value.records[0].SoaRR?
            && multiset(built.value.records[0].mbox)['@'] == if n == 0 then 0 else n - 1
  {
    RequestedOfBuilt(z, zone);
    BuildParses(zone, SoaOf(z), DataRecordsOf(z.records));
    MboxTakesOneAt(z.records[0].mbox);
    hide BuildZone, IsBuilt, DataRecordsOf, RequestedZone, DnsMbox, GoodSettings;
  }

  /** A zone whose address holds two '@', just published and clean. */
  function TwoAts(): ZoneRow {
    ZoneRow(SoaData("ns1.example.com", "a@b@c", 7200, 3600, 1209600, 3600, 3600, 7), "")
  }

  function TwoAtsDb(content: string): Db {
    Db(map["example.com" := TwoAts()], [], [SnapRow(1, "example.com", 7, content)], 0, 1, 20)
  }

  lemma TwoAtsMailbox()
    ensures DnsMbox("a@b@c") == "a.b@c." && multiset("a@b@c")['@'] == 2
  {
    assert "a@b@c"[1..] == "@b@c" && "@b@c"[1..] == "b@c";
  }

  lemma NamesInTwoAts()
    ensures Fqdn("ns1.example.com") == "ns1.example.com."
    ensures IsName("ns1.example.com.") && IsName("a.b@c.")
  {
  }

  lemma TwoAtsNames()
    ensures GoodSettings("example.com", TwoAts().soa) && multiset(TwoAts().soa.mbox)['@'] == 2
  {
    hide HoldsName, IsName, Fqdn, DnsMbox, Apex;
    TwoAtsMailbox();
    NamesInTwoAts();
    ExampleNames();
    NameHoldsItself("ns1.example.com.");
    NameHoldsItself("a.b@c.");
  }

  lemma TwoAtsBuild()
    ensures GoodSettings("example.com", TwoAts().soa) && multiset(TwoAts().soa.mbox)['@'] == 2
    ensures var built := BuildFrom("example.com", TwoAts(), []);
            built.Ok? && HasSoa(built.value) && WithSerial(built.value, 7) == built.value
  {
    var soa := TwoAts().soa;
    hide HoldsName, NameIn, DnsMbox, Fqdn, BuildZone, RequestedAll, GoodSettings;
    TwoAtsNames();
    assert RecsOf([]) == [];
    BuildParses("example.com", soa, []);
    RequestedBump("example.com", soa, [], 7);
    assert soa.(serial := 7) == soa;
  }

  lemma TwoAtsClean(content: string)
    requires BuildFrom("example.com", TwoAts(), []).Ok?
    requires content == RenderText(BuildFrom("example.com", TwoAts(), []).value)
    ensures var db := TwoAtsDb(content);
            && Integrity(db) && !Dirty(db, "example.com")
            && LastSnapshot(db, "example.com") == Some(SnapRow(1, "example.com", 7, content))
  {
    var db := TwoAtsDb(content);
    hide BuildFrom, RenderText;
    assert db.snapshots[..0] == [] && RowsOf(db, "example.com") == [];
    FilterAll(db.snapshots, SnapIn("example.com"));
    assert BuildDb(db, "example.com") == BuildFrom("example.com", TwoAts(), []);
  }

  /** Its settings are accepted and it is clean, but its snapshot does not restore. */
  lemma TwoAtsDoNotRestore()
    ensures SafeSettings("example.com", TwoAts().soa) && BuildFrom("example.com", TwoAts(), []).Ok?
    ensures var content := RenderText(BuildFrom("example.com", TwoAts(), []).value);
            var db := TwoAtsDb(content);
            var db' := RestoreSnapshot(db, "example.com", 1);
            && Integrity(db) && !Dirty(db, "example.com")
            && BuildDb(db', "example.com").Ok? && RenderText(BuildDb(db', "example.com").value) != content
            && Dirty(db', "example.com")
  {
    TwoAtsBuild();
    var content := RenderText(BuildFrom("example.com", TwoAts(), []).value);
    var s := SnapRow(1, "example.com", 7, content);
    assert s in TwoAtsDb(content).snapshots;
    hide *;
    SafeExactly("example.com", TwoAts().soa);
    TwoAtsClean(content);
    var db, db' := TwoAtsDb(content), RestoreSnapshot(TwoAtsDb(content), "example.com", 1);
    NoRows();
    DeployedIsPublished("example.com", TwoAts(), [], 7);
    RestoreRoundTrip(db, s);
    DeployedRestores(db, s, TwoAts(), []);
    SameLastSnapshot(db, db', "example.com");
    DirtyMeans(db', "example.com");
  }

  lemma NoRows()
    ensures CanonicalRows([]) && RowsSorted([])
  {
  }

  // ---------------------------------------------------------------------
  // What import and restore store
  // ---------------------------------------------------------------------

  /** A zone file's records all have a type the library knows. */
  ghost predicate KnownTypes(rrs: seq<RR>) {
    forall rr <- rrs :: rr.DataRR? ==> !IsPrivate(rr.rtype)
  }

  /** Any zone file that parses and has an SOA, under a zone name that is one, gives safe
      settings and rows that Build can print, with a type exactly where the library knows it. */
  lemma ParsedIsStorable(content: string, zone: string)
    requires ParseText(content, zone).Ok? && HasSoa(ParseText(content, zone).value) && IsName(Fqdn(zone))
    ensures var z := ParseText(content, zone).value;
            && SafeSettings(zone, SoaOf(z)) && AllStorable(DataRecordsOf(z.records))
            && (AllCanonical(DataRecordsOf(z.records)) <==> KnownTypes(z.records))
  {
    ParseRenderParse(content, zone);
    var z := ParseText(content, zone).value;
    hide ParseText, RenderText;
    ParsedSoaIsGood(z, zone);
    SafeExactly(zone, SoaOf(z));
    DataRecordsStorable(z.records);
  }

  lemma ParsedSoaIsGood(z: ZoneData, zone: string)
    requires WellFormedZone(z) && z.origin == Fqdn(zone) && HasSoa(z) && IsName(Fqdn(zone))
    ensures GoodSettings(zone, SoaOf(z))
  {
    var soa := SoaOf(z);
    assert WellFormed(z.records[SoaIndex(z.records)]);
    MboxStaysName(soa.mbox);
    ResolveFqdnIsItself(soa.primaryNS, z.origin);
    hide HoldsName, IsName, DnsMbox;
    NameHoldsItself(soa.primaryNS);
    NameHoldsItself(DnsMbox(soa.mbox));
  }

  lemma {:induction false} DataRecordsStorable(rrs: seq<RR>)
    requires forall i :: 0 <= i < |rrs| ==> WellFormed(rrs[i])
    ensures AllStorable(DataRecordsOf(rrs))
    ensures AllCanonical(DataRecordsOf(rrs)) <==> KnownTypes(rrs)
  {
    if rrs != [] {
      var rr, rest := rrs[0], rrs[1..];
      assert WellFormed(rr) && rrs == [rr] + rest;
      DataRecordsStorable(rest);
      assert DataRecordsOf(rrs) == (if View(rr).rtype == "SOA" then [] else [View(rr)]) + DataRecordsOf(rest);
      if rr.DataRR? {
        ViewIsStorable(rr);
        ViewIsNoSoa(rr);
        TypelessHasNoType(View(rr));
      } else {
        assert View(rr).rtype == "SOA";
      }
      hide DataRecordsOf, View, Canonical, Typeless, IsPrivate, WellFormed;
    }
  }

  // ---------------------------------------------------------------------
  // Stored rows
  // ---------------------------------------------------------------------

  ghost predicate StorableRows(rows: seq<RecordRow>) {
    forall r <- rows :: Storable(r.rec)
  }

  /** A zone's rows build exactly when each has a type. */
  lemma RowsBuildExactly(zone: string, row: ZoneRow, rows: seq<RecordRow>)
    requires SafeSettings(zone, row.soa) && StorableRows(rows)
    ensures BuildFrom(zone, row, rows).Ok? <==> CanonicalRows(rows)
  {
    hide BuildZone, SafeSettings, Storable, Canonical;
    var recs := RecsOf(rows);
    forall r | r in recs ensures Storable(r) {
      var i :| 0 <= i < |recs| && recs[i] == r;
      assert rows[i] in rows;
    }
    if AllCanonical(recs) {
      forall r | r in rows ensures Canonical(r.rec) {
        var i :| 0 <= i < |rows| && rows[i] == r;
        assert recs[i] in recs;
      }
    }
    if CanonicalRows(rows) {
      forall r | r in recs ensures Canonical(r) {
        var i :| 0 <= i < |recs| && recs[i] == r;
        assert rows[i] in rows;
      }
    }
    BuildsExactly(zone, row.soa, recs);
  }

  // ---------------------------------------------------------------------
  // What an imported zone builds
  // ---------------------------------------------------------------------

  lemma CanonicalBuilt(r: Record, origin: string, zoneTtl: uint32)
    requires Canonical(r)
    ensures Printable(r) && View(Requested(r, origin, zoneTtl)) == r.(ttl := if r.ttl == 0 then zoneTtl else r.ttl)
  {
    ResolveFqdnIsItself(r.name, origin);
    assert Mnemonic(r.rtype) == r.rtype;
  }

  /** The rows of a newly imported zone. */
  lemma ImportedRecords(db: Db, zone: string, row: ZoneRow, recs: seq<Record>)
    requires NoOrphans(db) && zone !in db.zones
    ensures var db' := Exec(db, ImportTx(zone, row, recs));
            && zone in db'.zones && db'.zones[zone] == row
            && RowsOf(db', zone) == NewRows(zone, recs, db.lastRecord)
            && multiset(Records(db', zone)) == multiset(NewRows(zone, recs, db.lastRecord))
            && RowsSorted(Records(db', zone))
  {
    var rows := NewRows(zone, recs, db.lastRecord);
    assert forall r <- rows :: r.zone == zone;
    hide Filter, NewRows;
    FilterSecond(db.records, rows, RowIn(zone));
    SortRowsSorts(rows);
    hide SortRows;
  }

  lemma ImportedAreCanonical(zone: string, recs: seq<Record>, lastId: nat, rows: seq<RecordRow>)
    requires AllCanonical(recs) && multiset(rows) == multiset(NewRows(zone, recs, lastId))
    ensures CanonicalRows(rows) && |rows| == |recs|
  {
    hide Canonical;
    forall r | r in rows ensures Canonical(r.rec) {
      assert r in multiset(rows);
      assert r in NewRows(zone, recs, lastId);
      var i :| 0 <= i < |recs| && NewRows(zone, recs, lastId)[i] == r;
      assert recs[i] in recs;
    }
    assert |multiset(rows)| == |rows|;
  }

  /** Once a zone file of known types is imported, the database builds a zone with its settings
      and exactly its data records, each once, in display order, zero TTLs filled in. */
  lemma ImportBuilds(db: Db, zone: string, content: string, targets: string)
    requires NoOrphans(db) && zone !in db.zones && IsName(Fqdn(zone))
    requires ParseText(content, zone).Ok? && HasSoa(ParseText(content, zone).value)
    requires KnownTypes(ParseText(content, zone).value.records)
    ensures var z := ParseText(content, zone).value;
            var recs, row := DataRecordsOf(z.records), ZoneRow(WithDefaults(SoaOf(z)), targets);
            var db' := Exec(db, ImportTx(zone, row, recs));
            var rows, built := Records(db', zone), BuildDb(db', zone);
            && multiset(rows) == multiset(NewRows(zone, recs, db.lastRecord)) && RowsSorted(rows) && |rows| == |recs|
            && built.Ok? && HasSoa(built.value) && SoaOf(built.value).serial == SoaOf(z).serial
            && |DataRecordsOf(built.value.records)| == |rows|
            && forall i :: 0 <= i < |rows| ==>
                 DataRecordsOf(built.value.records)[i]
                 == rows[i].rec.(ttl := if rows[i].rec.ttl == 0 then EffectiveTtl(row.soa) else rows[i].rec.ttl)
  {
    var z := ParseText(content, zone).value;
    var recs, row := DataRecordsOf(z.records), ZoneRow(WithDefaults(SoaOf(z)), targets);
    var db' := Exec(db, ImportTx(zone, row, recs));
    var rows := Records(db', zone);
    hide *;
    ParsedIsStorable(content, zone);
    DefaultsKeepNames(SoaOf(z));
    SafeIgnoresNumbers(zone, SoaOf(z), row.soa);
    SafeExactly(zone, row.soa);
    ImportedRecords(db, zone, row, recs);
    ImportedAreCanonical(zone, recs, db.lastRecord, rows);
    BuildsFromRows(db', zone);
  }

  lemma DefaultsKeepNames(soa: SoaData)
    ensures var d := WithDefaults(soa); d.primaryNS == soa.primaryNS && d.mbox == soa.mbox && d.serial == soa.serial
  {
  }

  /** What the database builds of typed rows under good settings. */
  lemma BuildsFromRows(db: Db, zone: string)
    requires zone in db.zones && GoodSettings(zone, db.zones[zone].soa) && CanonicalRows(Records(db, zone))
    ensures var rows, soa, built := Records(db, zone), db.zones[zone].soa, BuildDb(db, zone);
            && built.Ok? && HasSoa(built.value) && SoaOf(built.value).serial == soa.serial
            && |DataRecordsOf(built.value.records)| == |rows|
            && forall i :: 0 <= i < |rows| ==>
                 DataRecordsOf(built.value.records)[i]
                 == rows[i].rec.(ttl := if rows[i].rec.ttl == 0 then EffectiveTtl(soa) else rows[i].rec.ttl)
  {
    var rows, soa := Records(db, zone), db.zones[zone].soa;
    var recs := RecsOf(rows);
    RowsPrintable(rows);
    BuildParses(zone, soa, recs);
    RequestedViews(zone, soa, recs);
    RequestedSerial(zone, soa, recs);
    hide Records, BuildZone, RequestedZone, Requested, View, DataRecordsOf, GoodSettings, Printable, Canonical, Apex,
         EffectiveTtl, SoaOf, SoaIndex;
    forall i | 0 <= i < |rows|
      ensures View(Requested(recs[i], Apex(zone), EffectiveTtl(soa)))
           == rows[i].rec.(ttl := if rows[i].rec.ttl == 0 then EffectiveTtl(soa) else rows[i].rec.ttl)
    {
      CanonicalBuilt(rows[i].rec, Apex(zone), EffectiveTtl(soa));
    }
  }

  lemma RequestedSerial(zone: string, soa: SoaData, recs: seq<Record>)
    ensures var z := RequestedZone(zone, soa, recs); HasSoa(z) && SoaOf(z).serial == soa.serial
  {
    hide NameIn, Fqdn, DnsMbox, Apex, RequestedAll;
  }
}
