/** Model of modules/utils/database_v2.py: the key/value store as a class
    with a private dictionary and exception-only error reporting (errors are
    returned as an `Outcome` or a `Result`). */
module DatabaseV2 {
  import opened Wrappers
  import opened Records

  class Database {
    var db: Table

    /** A new instance has an empty store. */
    constructor ()
      ensures db == map[]
    {
      db := map[];
    }

    /** Fails with IdentifierAlreadyExists (no change) for an identifier that
        is already a key; otherwise maps it to `data` and changes nothing else. */
    method AddRecord(id: string, data: Record) returns (r: Outcome<DbError>)
      modifies this
      ensures r.Fail? <==> id in old(db)
      ensures r.Fail? ==> r.error == IdentifierAlreadyExists
      ensures db == if r.Pass? then old(db)[id := data] else old(db)
    {
      if id in db {
        return Fail(IdentifierAlreadyExists);
      }
      db := db[id := data];
      return Pass;
    }

    /** Fails with IdentifierNotExists (no change) for an absent identifier;
        otherwise removes that key alone. */
    method DelRecord(id: string) returns (r: Outcome<DbError>)
      modifies this
      ensures r.Fail? <==> id !in old(db)
      ensures r.Fail? ==> r.error == IdentifierNotExists
      ensures db == if r.Pass? then old(db) - {id} else old(db)
    {
      if id !in db {
        return Fail(IdentifierNotExists);
      }
      db := db - {id};
      return Pass;
    }

    /** The stored record, or IdentifierNotExists for an absent identifier. */
    method GetRecord(id: string) returns (r: Result<Record, DbError>)
      ensures r.Success? <==> id in db
      ensures r.Success? ==> r.value == db[id]
      ensures r.Failure? ==> r.error == IdentifierNotExists
    {
      if id !in db {
        return Failure(IdentifierNotExists);
      }
      return Success(db[id]);
    }

    /** The whole current store: every identifier with its record. */
    method GetAllRecords() returns (all: Table)
      ensures all.Keys == db.Keys
      ensures forall id :: id in all ==> all[id] == db[id]
    {
      return db;
    }

    /** The value of `field` in the record of `id`; IdentifierNotExists when
        the identifier is absent, FieldNotExists when the record lacks the
        field. */
    method GetRecordField(id: string, field: string) returns (r: Result<string, DbError>)
      ensures r.Success? <==> id in db && field in db[id]
      ensures r.Success? ==> r.value == db[id][field]
      ensures r.Failure? ==> r.error == if id in db then FieldNotExists else IdentifierNotExists
    {
      var record := GetRecord(id);
      if record.Failure? {
        return Failure(record.error);
      }
      if field !in record.value {
        return Failure(FieldNotExists);
      }
      return Success(record.value[field]);
    }
  }

  /** Adds `entries` one by one to a new instance, as the class walk-through
      does, and lists all records. The first identifier already present
      raises IdentifierAlreadyExists and ends the walk; with distinct
      identifiers every add succeeds and the store holds exactly them. */
  method Populate(entries: seq<(string, Record)>) returns (r: Result<Table, DbError>)
    ensures r.Success? <==> DistinctIds(entries)
    ensures r.Failure? ==> r.error == IdentifierAlreadyExists
    ensures r.Success? ==> r.value.Keys == Ids(entries)
    ensures r.Success? ==> forall i :: 0 <= i < |entries| ==> r.value[entries[i].0] == entries[i].1
  {
    var store := new Database();
    for i := 0 to |entries|
      invariant store.db.Keys == Ids(entries[..i])
      invariant DistinctIds(entries[..i])
      invariant forall k :: 0 <= k < i ==> store.db[entries[k].0] == entries[k].1
    {
      var added := store.AddRecord(entries[i].0, entries[i].1);
      if added.Fail? {
        ghost var k :| 0 <= k < i && entries[k].0 == entries[i].0;
        return Failure(added.error);
      }
      assert entries[..i + 1] == entries[..i] + [entries[i]];
    }
    assert entries[..|entries|] == entries;
    var all := store.GetAllRecords();
    return Success(all);
  }
}
