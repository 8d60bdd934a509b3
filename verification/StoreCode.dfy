/**
 The store object of internal/store/store.go: tables as fields that the methods reassign,
 each method proved against the statements and queries of the table model.
 */
module StoreCode {
  import opened Text
  import opened Serial
  import opened ZoneText
  import opened ZoneModel
  import opened Seqs
  import opened Store
  import opened StoreLaws
  import opened StoreTheorems

  /** The settings a caller hands to CreateZone and UpdateZoneSettings. */
  class ZoneSettings {
    const name: string
    var soa: SoaData
    const targets: seq<string>

    constructor (name: string, soa: SoaData, targets: seq<string>)
      ensures this.name == name && this.soa == soa && this.targets == targets
    {
      this.name, this.soa, this.targets := name, soa, targets;
    }

    /** Fills in every zero timer and TTL, in place. */
    method ApplyDefaults()
      modifies this`soa
      ensures soa == WithDefaults(old(soa))
      ensures soa.primaryNS == old(soa).primaryNS && soa.mbox == old(soa).mbox && soa.serial == old(soa).serial
      ensures soa.refresh == if old(soa).refresh == 0 then 7200 else old(soa).refresh
      ensures soa.retry == if old(soa).retry == 0 then 3600 else old(soa).retry
      ensures soa.expire == if old(soa).expire == 0 then 1209600 else old(soa).expire
      ensures soa.minimum == if old(soa).minimum == 0 then 3600 else old(soa).minimum
      ensures soa.ttl == if old(soa).ttl == 0 then 3600 else old(soa).ttl
    {
      if soa.refresh == 0 { soa := soa.(refresh := 7200); }
      if soa.retry == 0 { soa := soa.(retry := 3600); }
      if soa.expire == 0 { soa := soa.(expire := 1209600); }
      if soa.minimum == 0 { soa := soa.(minimum := 3600); }
      if soa.ttl == 0 { soa := soa.(ttl := 3600); }
    }
  }

  lemma DeletedRows(db: Db, zone: string)
    ensures RowsOf(Exec(db, DeleteZone(zone)), zone) == []
  {
    FilterMembers(db.records, RowOutside(zone));
    FilterNone(Filter(db.records, RowOutside(zone)), RowIn(zone));
    hide Filter;
  }

  lemma NothingOfZone(db: Db, zone: string)
    requires NoOrphans(db) && zone !in db.zones
    ensures Filter(db.records, RowOutside(zone)) == db.records
    ensures Filter(db.snapshots, SnapOutside(zone)) == db.snapshots
  {
    FilterAll(db.records, RowOutside(zone));
    FilterAll(db.snapshots, SnapOutside(zone));
  }

  lemma DeletedNothing(db: Db, zone: string)
    requires NoOrphans(db) && zone !in db.zones
    ensures Exec(db, DeleteZone(zone)) == db
  {
    hide NoOrphans, Filter, RowOutside, SnapOutside;
    NothingOfZone(db, zone);
    assert db.zones - {zone} == db.zones;
  }

  lemma DeletedZone(db: Db, zone: string)
    requires Integrity(db)
    ensures var db' := Exec(db, DeleteZone(zone));
            && zone !in db'.zones && RowsOf(db', zone) == [] && SnapsOf(db', zone) == []
            && (zone !in db.zones ==> db' == db)
  {
    assert zone !in Exec(db, DeleteZone(zone)).zones by { hide Filter; }
    IntegrityParts(db);
    hide *;
    DeletedRows(db, zone);
    DeleteTakesSnaps(db, zone);
    if zone !in db.zones { DeletedNothing(db, zone); }
  }

  lemma AddedRecord(db: Db, zone: string, rec: Record)
    ensures zone in db.zones ==>
              RowsOf(Exec(db, InsertRecord(zone, rec)), zone)
              == RowsOf(db, zone) + [RecordRow(db.lastRecord + 1, zone, rec)]
  {
    var row := RecordRow(db.lastRecord + 1, zone, rec);
    hide Filter;
    assert zone in db.zones ==> Exec(db, InsertRecord(zone, rec)).records == db.records + [row];
    FilterSnoc(db.records, row, RowIn(zone));
    hide Exec;
  }

  lemma NoneListed(zone: string)
    ensures Filter([], RowIn(zone)) == [] && SortRows([]) == [] && RowsSorted([])
  {
  }

  /** Sorted rows, by name, then type, then id. */
  lemma InOrder(rows: seq<RecordRow>)
    requires RowsSorted(rows)
    ensures forall i, j :: 0 <= i < j < |rows| ==>
              var (a, b) := (rows[i].rec, rows[j].rec);
              || TextLess(a.name, b.name)
              || (a.name == b.name && TextLess(a.rtype, b.rtype))
              || (a.name == b.name && a.rtype == b.rtype && rows[i].id <= rows[j].id)
  {
    hide TextLess;
  }

  lemma FirstOfSorted(r: RecordRow, rows: seq<RecordRow>)
    ensures SortRows([r] + rows) == InsertSorted(r, SortRows(rows))
    ensures multiset([r] + rows) == multiset(rows) + multiset{r}
  {
    assert ([r] + rows)[1..] == rows;
  }

  /** Where InsertSorted puts a row. */
  lemma {:induction false} InsertedAt(r: RecordRow, rows: seq<RecordRow>, k: nat)
    requires k <= |rows| && (forall j :: 0 <= j < k ==> !RowLe(r, rows[j])) && (k < |rows| ==> RowLe(r, rows[k]))
    ensures InsertSorted(r, rows) == rows[..k] + [r] + rows[k..]
  {
    hide RowLe;
    if k > 0 {
      InsertedAt(r, rows[1..], k - 1);
      assert rows[..k] == [rows[0]] + rows[1..][..k - 1] && rows[k..] == rows[1..][k - 1..];
    } else {
      assert rows[..0] == [] && rows[0..] == rows;
    }
  }

  lemma UpdatedOne(db: Db, zone: string, id: nat, rec: Record)
    requires IdsIncrease(db) && exists r <- db.records :: r.id == id && r.zone == zone
    ensures exists k ::
              && 0 <= k < |db.records| && db.records[k].id == id && db.records[k].zone == zone
              && Exec(db, UpdateRecord(zone, id, rec)).records == db.records[k := RecordRow(id, zone, rec)]
  {
    var k :| 0 <= k < |db.records| && db.records[k].id == id && db.records[k].zone == zone;
    assert Exec(db, UpdateRecord(zone, id, rec)).records == db.records[k := RecordRow(id, zone, rec)];
  }

  lemma DeletedOne(db: Db, zone: string, id: nat)
    requires IdsIncrease(db) && exists r <- db.records :: r.id == id && r.zone == zone
    ensures var rows := Exec(db, DeleteRecord(zone, id)).records;
            && (forall r <- rows :: !(r.id == id && r.zone == zone))
            && exists k ::
                 && 0 <= k < |db.records| && db.records[k].id == id && db.records[k].zone == zone
                 && rows == db.records[..k] + db.records[k + 1..]
  {
    var k :| 0 <= k < |db.records| && db.records[k].id == id && db.records[k].zone == zone;
    hide Filter;
    FilterAllButOne(db.records, k, RowOther(zone, id));
  }

  /** An import adds the zone's row and one row for each record, and touches nothing else. */
  lemma ImportedRows(db: Db, zone: string, row: ZoneRow, recs: seq<Record>)
    requires NoOrphans(db) && zone !in db.zones
    ensures var db' := Exec(db, ImportTx(zone, row, recs));
            && db'.zones == db.zones[zone := row] && db'.snapshots == db.snapshots
            && db'.records == db.records + NewRows(zone, recs, db.lastRecord)
            && RecsOf(RowsOf(db', zone)) == recs
            && forall other :: other != zone ==> SameZone(db, db', other)
  {
    var rows := NewRows(zone, recs, db.lastRecord);
    assert RecsOf(rows) == recs;
    assert forall r <- rows :: r.zone == zone;
    hide Filter, NewRows, RecsOf, SameZone;
    FilterSecond(db.records, rows, RowIn(zone));
    forall other | other != zone ensures SameZone(db, Exec(db, ImportTx(zone, row, recs)), other) {
      Isolation(db, ImportTx(zone, row, recs), other);
    }
  }

  lemma SameZoneItself(db: Db)
    ensures forall other :: SameZone(db, db, other)
  {
  }

  /** A restore gives the zone the settings and one row for each record, and touches nothing
      else. */
  lemma ReplacedRows(db: Db, zone: string, soa: SoaData, recs: seq<Record>)
    requires zone in db.zones
    ensures var db' := Exec(db, RestoreTx(zone, soa, recs));
            && db'.zones == db.zones[zone := db.zones[zone].(soa := soa)] && db'.snapshots == db.snapshots
            && RecsOf(RowsOf(db', zone)) == recs
            && forall other :: other != zone ==> SameZone(db, db', other)
  {
    RestoreStep(db, zone, soa, recs);
    assert RecsOf(NewRows(zone, recs, db.lastRecord)) == recs;
    hide SameZone, RowsOf, NewRows, RecsOf;
    forall other | other != zone ensures SameZone(db, Exec(db, RestoreTx(zone, soa, recs)), other) {
      Isolation(db, RestoreTx(zone, soa, recs), other);
    }
  }

  /** A publish sets the serial, adds the snapshot and keeps the newest ones, of this zone only. */
  lemma PublishedRows(db: Db, zone: string, serial: uint32, content: string)
    requires Integrity(db) && zone in db.zones
    ensures var db1 := Exec(db, SetSerial(zone, serial));
            var db2 := Exec(db1, InsertSnapshot(zone, serial, content));
            var db3 := Exec(db2, PruneSnapshots(zone));
            && db3.zones == db.zones[zone := db.zones[zone].(soa := db.zones[zone].soa.(serial := serial))]
            && db3.records == db.records
            && SnapsOf(db3, zone)
               == Last(SnapsOf(db, zone) + [SnapRow(db.lastSnap + 1, zone, serial, content)], db.keep)
            && forall other :: other != zone ==> SameZone(db, db3, other)
  {
    PublishedTables(db, zone, serial, content);
    hide *;
    PublishedSnaps(db, zone, serial, content);
    forall other | other != zone
      ensures SameZone(db, Exec(Exec(Exec(db, SetSerial(zone, serial)), InsertSnapshot(zone, serial, content)),
                                PruneSnapshots(zone)), other)
    {
      PublishedOthers(db, zone, serial, content, other);
    }
  }

  lemma PublishedSnaps(db: Db, zone: string, serial: uint32, content: string)
    requires Integrity(db) && zone in db.zones
    ensures var db1 := Exec(db, SetSerial(zone, serial));
            var db2 := Exec(db1, InsertSnapshot(zone, serial, content));
            (SnapsOf(Exec(db2, PruneSnapshots(zone)), zone)
             == Last(SnapsOf(db, zone) + [SnapRow(db.lastSnap + 1, zone, serial, content)], db.keep))
  {
    var s1, s2, s3 := SetSerial(zone, serial), InsertSnapshot(zone, serial, content), PruneSnapshots(zone);
    var db1 := Exec(db, s1);
    var db2 := Exec(db1, s2);
    PublishedTables(db, zone, serial, content);
    hide *;
    ExecKeepsIntegrity(db, s1);
    ExecKeepsIntegrity(db1, s2);
    OwnSnaps(db, zone, s1);
    OwnSnaps(db1, zone, s2);
    OwnSnaps(db2, zone, s3);
  }

  lemma PublishedOthers(db: Db, zone: string, serial: uint32, content: string, other: string)
    requires other != zone
    ensures var db1 := Exec(db, SetSerial(zone, serial));
            var db2 := Exec(db1, InsertSnapshot(zone, serial, content));
            SameZone(db, Exec(db2, PruneSnapshots(zone)), other)
  {
    hide *;
    var s1, s2, s3 := SetSerial(zone, serial), InsertSnapshot(zone, serial, content), PruneSnapshots(zone);
    var db1 := Exec(db, s1);
    var db2 := Exec(db1, s2);
    Isolation(db, s1, other);
    Isolation(db1, s2, other);
    Isolation(db2, s3, other);
    SameZones(db, db1, db2, Exec(db2, s3), other);
  }

  lemma SameZones(a: Db, b: Db, c: Db, d: Db, zone: string)
    requires SameZone(a, b, zone) && SameZone(b, c, zone) && SameZone(c, d, zone)
    ensures SameZone(a, d, zone)
  {
    hide RowsOf, SnapsOf;
  }

  lemma PublishedTables(db: Db, zone: string, serial: uint32, content: string)
    requires zone in db.zones
    ensures var db1 := Exec(db, SetSerial(zone, serial));
            var db2 := Exec(db1, InsertSnapshot(zone, serial, content));
            var db3 := Exec(db2, PruneSnapshots(zone));
            && zone in db1.zones && db1.lastSnap == db.lastSnap && db2.keep == db.keep
            && db3.zones == db.zones[zone := db.zones[zone].(soa := db.zones[zone].soa.(serial := serial))]
            && db3.records == db.records
  {
    hide Filter, NewestIds;
  }

  lemma SnapshotsOf(db: Db, zone: string)
    ensures forall s :: s in SnapsOf(db, zone) <==> s in db.snapshots && s.zone == zone
    ensures IdsIncrease(db) ==>
              forall i, j :: 0 <= i < j < |SnapsOf(db, zone)| ==> SnapsOf(db, zone)[i].id < SnapsOf(db, zone)[j].id
  {
    FilterMembers(db.snapshots, SnapIn(zone));
    if IdsIncrease(db) { FilterKeepsOrder(db.snapshots, SnapIn(zone), (s: SnapRow) => s.id); }
    hide Filter;
  }

  lemma Backwards<T>(out: seq<T>, s: seq<T>)
    requires |out| == |s| && forall i :: 0 <= i < |out| ==> out[i] == s[|s| - 1 - i]
    ensures forall x :: x in out <==> x in s
  {
    forall x | x in s ensures x in out {
      var i :| 0 <= i < |s| && s[i] == x;
      assert out[|s| - 1 - i] == x;
    }
  }

  class Database {
    var zones: map<string, ZoneRow>
    var records: seq<RecordRow>
    var snapshots: seq<SnapRow>
    var lastRecord: nat
    var lastSnap: nat
    const keep: nat

    function Value(): Db
      reads this
    {
      Db(zones, records, snapshots, lastRecord, lastSnap, keep)
    }

    ghost predicate Valid()
      reads this
    {
      keep > 0 && Integrity(Value())
    }

    /** Open: an empty database keeping 20 snapshots unless told otherwise. */
    constructor (keep: int)
      ensures Valid() && Value() == Db(map[], [], [], 0, 0, if keep <= 0 then 20 else keep)
    {
      this.keep := if keep <= 0 then 20 else keep;
      zones, records, snapshots, lastRecord, lastSnap := map[], [], [], 0, 0;
    }

    /** One SQL statement. */
    method Execute(stmt: Stmt)
      requires Valid()
      modifies this
      ensures Valid() && Value() == Exec(old(Value()), stmt)
    {
      ExecKeepsIntegrity(Value(), stmt);
      var db := Exec(Value(), stmt);
      zones, records, snapshots, lastRecord, lastSnap := db.zones, db.records, db.snapshots, db.lastRecord, db.lastSnap;
    }

    method CreateZone(z: ZoneSettings) returns (ok: bool)
      requires Valid()
      modifies this
      ensures Valid() && ok == (z.name !in old(zones))
      ensures Value() == Exec(old(Value()), InsertZone(z.name, ZoneRow(WithDefaults(z.soa), JoinTargets(z.targets))))
      ensures zones
           == if ok then old(zones)[z.name := ZoneRow(WithDefaults(z.soa), JoinTargets(z.targets))] else old(zones)
      ensures records == old(records) && snapshots == old(snapshots)
    {
      var copy := new ZoneSettings(z.name, z.soa, z.targets);
      copy.ApplyDefaults();
      ok := copy.name !in zones;
      Execute(InsertZone(copy.name, ZoneRow(copy.soa, JoinTargets(copy.targets))));
    }

    /** Everything but the serial. */
    method UpdateZoneSettings(z: ZoneSettings) returns (ok: bool)
      requires Valid()
      modifies this
      ensures Valid() && ok == (z.name in old(zones))
      ensures Value()
           == Exec(old(Value()), UpdateSettings(z.name, ZoneRow(WithDefaults(z.soa), JoinTargets(z.targets))))
      ensures ok ==> zones[z.name].soa.serial == old(zones)[z.name].soa.serial
      ensures zones == if !ok then old(zones) else
                old(zones)[z.name := ZoneRow(WithDefaults(z.soa).(serial := old(zones)[z.name].soa.serial),
                                             JoinTargets(z.targets))]
      ensures records == old(records) && snapshots == old(snapshots)
    {
      var copy := new ZoneSettings(z.name, z.soa, z.targets);
      copy.ApplyDefaults();
      ok := copy.name in zones;
      Execute(UpdateSettings(copy.name, ZoneRow(copy.soa, JoinTargets(copy.targets))));
    }

    /** Gives the zone this serial and changes nothing else. */
    method UpdateSerial(name: string, serial: uint32) returns (ok: bool)
      requires Valid()
      modifies this
      ensures Valid() && ok == (name in old(zones))
      ensures Value() == Exec(old(Value()), SetSerial(name, serial))
      ensures ok ==> name in zones && zones[name].soa.serial == serial
                     && zones[name] == old(zones)[name].(soa := old(zones)[name].soa.(serial := serial))
      ensures ok ==>
                && zones.Keys == old(zones).Keys
                && forall other :: other in zones && other != name ==> zones[other] == old(zones)[other]
      ensures records == old(records) && snapshots == old(snapshots) && (!ok ==> Value() == old(Value()))
    {
      ok := name in zones;
      Execute(SetSerial(name, serial));
    }

    /** Takes the zone away with all its records and snapshots, and nothing of any other zone. */
    method RemoveZone(name: string) returns (ok: bool)
      requires Valid()
      modifies this
      ensures Valid() && ok == (name in old(zones))
      ensures Value() == Exec(old(Value()), DeleteZone(name))
      ensures name !in zones && RowsOf(Value(), name) == [] && SnapsOf(Value(), name) == []
      ensures forall other :: other != name ==> SameZone(old(Value()), Value(), other)
      ensures !ok ==> Value() == old(Value())
    {
      ok := name in zones;
      DeletedZone(Value(), name);
      forall other | other != name ensures SameZone(Value(), Exec(Value(), DeleteZone(name)), other) {
        Isolation(Value(), DeleteZone(name), other);
      }
      hide SameZone, Exec, Integrity;
      Execute(DeleteZone(name));
    }

    /** Adds one row to the zone's, with an id no record ever had, and nothing to any other. */
    method AddRecord(name: string, rec: Record) returns (ok: bool)
      requires Valid()
      modifies this
      ensures Valid() && ok == (name in old(zones))
      ensures Value() == Exec(old(Value()), InsertRecord(name, rec))
      ensures ok ==> RowsOf(Value(), name) == RowsOf(old(Value()), name) + [RecordRow(lastRecord, name, rec)]
      ensures ok ==> records == old(records) + [RecordRow(lastRecord, name, rec)]
      ensures ok ==> lastRecord == old(lastRecord) + 1 && forall r <- old(records) :: r.id < lastRecord
      ensures forall other :: other != name ==> SameZone(old(Value()), Value(), other)
      ensures zones == old(zones) && snapshots == old(snapshots) && (!ok ==> Value() == old(Value()))
    {
      ok := name in zones;
      AddedRecord(Value(), name, rec);
      forall other | other != name ensures SameZone(Value(), Exec(Value(), InsertRecord(name, rec)), other) {
        Isolation(Value(), InsertRecord(name, rec), other);
      }
      assert forall r <- records :: r.id <= lastRecord;
      assert ok ==> Exec(Value(), InsertRecord(name, rec)).records
                    == records + [RecordRow(lastRecord + 1, name, rec)];
      hide SameZone, Exec, Integrity, RowsOf;
      Execute(InsertRecord(name, rec));
    }

    /** Puts the record in the one row of this zone with this id, or finds none and changes
        nothing. */
    method UpdateRecord(name: string, id: nat, rec: Record) returns (ok: bool)
      requires Valid()
      modifies this
      ensures Valid() && (ok <==> exists r <- old(records) :: r.id == id && r.zone == name)
      ensures Value() == Exec(old(Value()), Stmt.UpdateRecord(name, id, rec))
      ensures !ok ==> Value() == old(Value())
      ensures ok ==>
                exists k ::
                  && 0 <= k < |old(records)| && old(records)[k].id == id && old(records)[k].zone == name
                  && records == old(records)[k := RecordRow(id, name, rec)]
      ensures zones == old(zones) && snapshots == old(snapshots)
    {
      ok := HasRecord(name, id);
      if !ok {
        assert forall r <- records :: !(r.id == id && r.zone == name);
        assert ReplaceRec(records, name, id, rec) == records;
      } else {
        UpdatedOne(Value(), name, id, rec);
      }
      Execute(Stmt.UpdateRecord(name, id, rec));
    }

    /** Takes away the one row of this zone with this id and leaves the others in order, or finds
        none and changes nothing. */
    method DeleteRecord(name: string, id: nat) returns (ok: bool)
      requires Valid()
      modifies this
      ensures Valid() && (ok <==> exists r <- old(records) :: r.id == id && r.zone == name)
      ensures Value() == Exec(old(Value()), Stmt.DeleteRecord(name, id))
      ensures !ok ==> Value() == old(Value())
      ensures forall r <- records :: !(r.id == id && r.zone == name)
      ensures ok ==>
                exists k ::
                  && 0 <= k < |old(records)| && old(records)[k].id == id && old(records)[k].zone == name
                  && records == old(records)[..k] + old(records)[k + 1..]
      ensures zones == old(zones) && snapshots == old(snapshots)
    {
      ok := HasRecord(name, id);
      if !ok {
        FilterAll(records, RowOther(name, id));
      } else {
        DeletedOne(Value(), name, id);
      }
      Execute(Stmt.DeleteRecord(name, id));
    }

    method HasRecord(name: string, id: nat) returns (found: bool)
      ensures found <==> exists r <- records :: r.id == id && r.zone == name
    {
      found := false;
      for i := 0 to |records|
        invariant found <==> exists r <- records[..i] :: r.id == id && r.zone == name
      {
        assert records[..i + 1] == records[..i] + [records[i]];
        found := found || (records[i].id == id && records[i].zone == name);
      }
      assert records[..|records|] == records;
    }

    /** Inserts rows one by one, as the import and restore transactions do. */
    method InsertAll(name: string, recs: seq<Record>)
      requires Valid() && name in zones
      modifies this
      ensures Valid()
      ensures Value() == old(Value()).(records := old(records) + NewRows(name, recs, old(lastRecord)),
                                       lastRecord := old(lastRecord) + |recs|)
    {
      var i := 0;
      while i < |recs|
        invariant i <= |recs| && Valid()
        invariant Value() == old(Value()).(records := old(records) + NewRows(name, recs[..i], old(lastRecord)),
                                           lastRecord := old(lastRecord) + i)
      {
        assert NewRows(name, recs[..i + 1], old(lastRecord))
            == NewRows(name, recs[..i], old(lastRecord)) + [RecordRow(old(lastRecord) + i + 1, name, recs[i])];
        Execute(InsertRecord(name, recs[i]));
        i := i + 1;
      }
      assert recs[..i] == recs;
    }

    /** Parses a zone file into a new zone; nothing changes unless all of it succeeds. */
    method ImportZone(name: string, content: string, targets: seq<string>) returns (r: Result<nat>)
      requires Valid()
      modifies this
      ensures Valid()
      ensures r.Ok? <==> name !in old(zones) && ParseText(content, name).Ok? && HasSoa(ParseText(content, name).value)
      ensures r.Err? ==> Value() == old(Value())
      ensures r.Ok? ==>
                var z := ParseText(content, name).value;
                var recs := DataRecordsOf(z.records);
                r == Ok(|recs|)
                && Value()
                   == Exec(old(Value()), ImportTx(name, ZoneRow(WithDefaults(SoaOf(z)), JoinTargets(targets)), recs))
      ensures r.Ok? ==>
                var z := ParseText(content, name).value;
                var recs := DataRecordsOf(z.records);
                && zones == old(zones)[name := ZoneRow(WithDefaults(SoaOf(z)), JoinTargets(targets))]
                && records == old(records) + NewRows(name, recs, old(lastRecord))
                && RecsOf(RowsOf(Value(), name)) == recs
                && snapshots == old(snapshots)
      ensures forall other :: other != name ==> SameZone(old(Value()), Value(), other)
    {
      hide SameZone, RowsOf, RecsOf, Integrity, ParseText, DataRecordsOf, SoaIndex;
      SameZoneItself(Value());
      if name in zones {
        return Err("zone already exists");
      }
      var parsed := ParseContent(content, name);
      if parsed.Err? {
        return Err("parse zone: " + parsed.error);
      }
      var z := new Zone(parsed.value.origin, parsed.value.records);
      var soa := z.ReadSoaData();
      if soa.Err? {
        return Err(soa.error);
      }
      var recs := z.DataRecords();
      var row := new ZoneSettings(name, soa.value, targets);
      row.ApplyDefaults();
      Execute(InsertZone(name, ZoneRow(row.soa, JoinTargets(targets))));
      InsertAll(name, recs);
      assert NoOrphans(old(Value())) by { IntegrityParts(old(Value())); }
      ImportedRows(old(Value()), name, ZoneRow(row.soa, JoinTargets(targets)), recs);
      return Ok(|recs|);
    }

    /** The zone's rows, each once, by name, type and id: the query's ORDER BY. */
    method ListRecords(name: string) returns (out: seq<RecordRow>)
      ensures RowsSorted(out) && multiset(out) == multiset(RowsOf(Value(), name))
      ensures out == Records(Value(), name)
      ensures forall r :: r in out <==> r in records && r.zone == name
      ensures forall i, j :: 0 <= i < j < |out| ==>
                var (a, b) := (out[i].rec, out[j].rec);
                || TextLess(a.name, b.name)
                || (a.name == b.name && TextLess(a.rtype, b.rtype))
                || (a.name == b.name && a.rtype == b.rtype && out[i].id <= out[j].id)
    {
      hide RowsSorted, SortRows, InsertSorted, Filter;
      out := [];
      NoneListed(name);
      assert records[|records|..] == [];
      var i := |records|;
      while i > 0
        invariant 0 <= i <= |records|
        invariant RowsSorted(out) && multiset(out) == multiset(Filter(records[i..], RowIn(name)))
        invariant out == SortRows(Filter(records[i..], RowIn(name)))
      {
        i := i - 1;
        FilterCons(records[i], records[i + 1..], RowIn(name));
        assert records[i..] == [records[i]] + records[i + 1..];
        if records[i].zone == name {
          FirstOfSorted(records[i], Filter(records[i + 1..], RowIn(name)));
          out := InsertInOrder(records[i], out);
        }
      }
      assert records[0..] == records;
      InOrder(out);
      FilterMembers(records, RowIn(name));
      assert forall r :: r in out <==> r in multiset(out);
      assert forall r :: r in RowsOf(Value(), name) <==> r in multiset(RowsOf(Value(), name));
    }

    /** Puts a row in its place among sorted ones. */
    method InsertInOrder(r: RecordRow, rows: seq<RecordRow>) returns (out: seq<RecordRow>)
      requires RowsSorted(rows)
      ensures RowsSorted(out) && multiset(out) == multiset(rows) + multiset{r}
      ensures out == InsertSorted(r, rows)
    {
      hide RowLe;
      var k := 0;
      while k < |rows| && !RowLe(r, rows[k])
        invariant k <= |rows| && forall j :: 0 <= j < k ==> !RowLe(r, rows[j])
      {
        k := k + 1;
      }
      InsertKeepsSorted(r, rows);
      InsertedAt(r, rows, k);
      return rows[..k] + [r] + rows[k..];
    }

    method BuildZoneFile(name: string) returns (r: Result<ZoneData>)
      ensures r == BuildDb(Value(), name)
    {
      hide Records, RowsOf, RowsSorted, BuildZone, TextLess;
      if name !in zones {
        return Err("not found");
      }
      var rows := ListRecords(name);
      var recs: seq<Record> := [];
      for i := 0 to |rows|
        invariant recs == RecsOf(rows[..i])
      {
        assert RecsOf(rows[..i + 1]) == RecsOf(rows[..i]) + [rows[i].rec];
        recs := recs + [rows[i].rec];
      }
      assert rows[..|rows|] == rows;
      r := Build(name, zones[name].soa, recs);
    }

    method IsDirty(name: string) returns (dirty: bool)
      ensures dirty == Dirty(Value(), name)
    {
      var last := LastSnapshot(Value(), name);
      if last.None? {
        return true;
      }
      var built := BuildZoneFile(name);
      if built.Err? {
        return true;
      }
      return RenderText(built.value) != last.value.content;
    }

    /** Serial, snapshot, prune: three statements, the first of which may find no zone. */
    method Publish(name: string, content: string, serial: uint32) returns (ok: bool)
      requires Valid()
      modifies this
      ensures Valid() && ok == (name in old(zones))
      ensures !ok ==> Value() == old(Value())
      ensures ok ==> Value() == Exec(Exec(Exec(old(Value()), SetSerial(name, serial)),
                                          InsertSnapshot(name, serial, content)), PruneSnapshots(name))
      ensures ok ==>
                && zones == old(zones)[name := old(zones)[name].(soa := old(zones)[name].soa.(serial := serial))]
                && records == old(records)
                && SnapsOf(Value(), name)
                   == Last(SnapsOf(old(Value()), name) + [SnapRow(old(lastSnap) + 1, name, serial, content)], keep)
      ensures forall other :: other != name ==> SameZone(old(Value()), Value(), other)
    {
      hide SameZone, Exec, SnapsOf, Last, Integrity;
      SameZoneItself(Value());
      ok := UpdateSerial(name, serial);
      if !ok {
        return;
      }
      PublishedRows(old(Value()), name, serial, content);
      Execute(InsertSnapshot(name, serial, content));
      Execute(PruneSnapshots(name));
    }

    /** The zone's snapshots, newest first. */
    method ListSnapshots(name: string) returns (out: seq<SnapRow>)
      ensures |out| == |SnapsOf(Value(), name)|
      ensures forall i :: 0 <= i < |out| ==> out[i] == SnapsOf(Value(), name)[|out| - 1 - i]
      ensures forall s :: s in out <==> s in snapshots && s.zone == name
      ensures Valid() ==> forall i, j :: 0 <= i < j < |out| ==> out[i].id > out[j].id
    {
      SnapshotsOf(Value(), name);
      var snaps := SnapsOf(Value(), name);
      out := [];
      var i := |snaps|;
      while i > 0
        invariant 0 <= i <= |snaps| && |out| == |snaps| - i
        invariant forall j :: 0 <= j < |out| ==> out[j] == snaps[|snaps| - 1 - j]
      {
        i := i - 1;
        out := out + [snaps[i]];
      }
      Backwards(out, snaps);
    }

    /** Replaces settings and records by a snapshot's parsed contents, or changes nothing. */
    method Restore(name: string, id: nat) returns (err: Option<string>)
      requires Valid()
      modifies this
      ensures Valid()
      ensures err.None? <==> RestorePlan(old(Value()), name, id).Ok?
      ensures Value() == RestoreSnapshot(old(Value()), name, id)
      ensures err.Some? ==> Value() == old(Value())
      ensures err.None? ==>
                exists s <- old(snapshots) :: s.id == id && s.zone == name && ParseText(s.content, name).Ok?
                  && var z := ParseText(s.content, name).value;
                  && HasSoa(z) && zones == old(zones)[name := old(zones)[name].(soa := SoaOf(z))]
                  && RecsOf(RowsOf(Value(), name)) == DataRecordsOf(z.records)
      ensures snapshots == old(snapshots) && forall other :: other != name ==> SameZone(old(Value()), Value(), other)
    {
      var found := Filter(snapshots, SnapIs(name, id));
      if found == [] {
        return Some("not found");
      }
      FilterMembers(snapshots, SnapIs(name, id));
      assert found[0] in found;
      var parsed := ParseContent(found[0].content, name);
      if parsed.Err? {
        return Some("parse snapshot: " + parsed.error);
      }
      var z := new Zone(parsed.value.origin, parsed.value.records);
      var soa := z.ReadSoaData();
      if soa.Err? {
        return Some(soa.error);
      }
      var recs := z.DataRecords();
      Replace(name, soa.value, recs);
      return None;
    }

    /** The restore transaction: one update, one delete, then the inserts. */
    method Replace(name: string, soa: SoaData, recs: seq<Record>)
      requires Valid() && name in zones
      modifies this
      ensures Valid() && Value() == Exec(old(Value()), RestoreTx(name, soa, recs))
      ensures zones == old(zones)[name := old(zones)[name].(soa := soa)] && snapshots == old(snapshots)
      ensures RecsOf(RowsOf(Value(), name)) == recs
      ensures forall other :: other != name ==> SameZone(old(Value()), Value(), other)
    {
      ReplacedRows(Value(), name, soa, recs);
      ExecKeepsIntegrity(Value(), RestoreTx(name, soa, []));
      hide Integrity, Filter;
      zones := zones[name := zones[name].(soa := soa)];
      records := Filter(records, RowOutside(name));
      assert records + NewRows(name, [], lastRecord) == records;
      assert Value() == Exec(old(Value()), RestoreTx(name, soa, []));
      InsertAll(name, recs);
    }
  }
}
