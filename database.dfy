/** Model of modules/utils/database.py: one module-level dictionary of records
    and four operations on it, each in two error styles. The sentinel style
    answers `False` or `None`; the exception style raises one of the three
    error kinds, here returned as an `Outcome` or a `Result`. The module-level
    dictionary is the field `db` of a `Store`. */
module Database {
  import opened Wrappers
  import opened Records

  class Store {
    var db: Table

    /** The module starts with an empty dictionary. */
    constructor ()
      ensures db == map[]
    {
      db := map[];
    }

    /** Refuses (answers false, no change) an identifier that is already a
        key; otherwise maps it to `data` and answers true. */
    method AddRecordWithoutException(id: string, data: Record) returns (added: bool)
      modifies this
      ensures added <==> id !in old(db)
      ensures db == if added then old(db)[id := data] else old(db)
    {
      if id in db {
        return false;
      }
      db := db[id := data];
      return true;
    }

    /** Fails with IdentifierAlreadyExists (no change) for an identifier that
        is already a key; otherwise maps it to `data`. */
    method AddRecordWithException(id: string, data: Record) returns (r: Outcome<DbError>)
      modifies this
      ensures r.Fail? <==> id in old(db)
      ensures r.Fail? ==> r.error == IdentifierAlreadyExists
      ensures db == if r.Pass? then old(db)[id := data] else old(db)
    {
      if id in db {
        return Fail(IdentifierAlreadyExists);
      }
      db := db[id := data];
      return Pass;
    }

    /** Answers false (no change) for an absent identifier; otherwise removes
        that key alone and answers true. */
    method DelRecordWithoutException(id: string) returns (deleted: bool)
      modifies this
      ensures deleted <==> id in old(db)
      ensures db == if deleted then old(db) - {id} else old(db)
    {
      if id !in db {
        return false;
      }
      db := db - {id};
      return true;
    }

    /** Fails with IdentifierNotExists (no change) for an absent identifier;
        otherwise removes that key alone. */
    method DelRecordWithException(id: string) returns (r: Outcome<DbError>)
      modifies this
      ensures r.Fail? <==> id !in old(db)
      ensures r.Fail? ==> r.error == IdentifierNotExists
      ensures db == if r.Pass? then old(db) - {id} else old(db)
    {
      if id !in db {
        return Fail(IdentifierNotExists);
      }
      db := db - {id};
      return Pass;
    }

    /** The stored record, or None for an absent identifier. */
    method GetRecordWithoutException(id: string) returns (r: Option<Record>)
      ensures r.Some? <==> id in db
      ensures r.Some? ==> r.value == db[id]
    {
      if id !in db {
        return None;
      }
      return Some(db[id]);
    }

    /** The stored record, or IdentifierNotExists for an absent identifier. */
    method GetRecordWithException(id: string) returns (r: Result<Record, DbError>)
      ensures r.Success? <==> id in db
      ensures r.Success? ==> r.value == db[id]
      ensures r.Failure? ==> r.error == IdentifierNotExists
    {
      if id !in db {
        return Failure(IdentifierNotExists);
      }
      return Success(db[id]);
    }

    /** The value of `field` in the record of `id`, or None when the
        identifier is absent, its record is empty or lacks the field. */
    method GetRecordFieldWithoutException(id: string, field: string) returns (r: Option<string>)
      ensures r.Some? <==> id in db && field in db[id]
      ensures r.Some? ==> r.value == db[id][field]
    {
      var record := GetRecordWithoutException(id);
      // An empty dictionary is falsy: the record is refused before the field test.
      if record.None? || |record.value| == 0 {
        return None;
      }
      if field !in record.value {
        return None;
      }
      return Some(record.value[field]);
    }

    /** The value of `field` in the record of `id`; IdentifierNotExists when
        the identifier is absent, FieldNotExists when the record lacks the
        field. */
    method GetRecordFieldWithException(id: string, field: string) returns (r: Result<string, DbError>)
      ensures r.Success? <==> id in db && field in db[id]
      ensures r.Success? ==> r.value == db[id][field]
      ensures r.Failure? ==> r.error == if id in db then FieldNotExists else IdentifierNotExists
    {
      var record := GetRecordWithException(id);
      if record.Failure? {
        return Failure(record.error);
      }
      if field !in record.value {
        return Failure(FieldNotExists);
      }
      return Success(record.value[field]);
    }
  }

  /** On two stores with the same contents the two styles of add agree: the
      exception is raised exactly when false is answered, and both leave the
      same contents. */
  method AddStylesAgree(plain: Store, checked: Store, id: string, data: Record)
    returns (added: bool, r: Outcome<DbError>)
    requires plain != checked && plain.db == checked.db
    modifies plain, checked
    ensures added <==> r.Pass?
    ensures plain.db == checked.db
  {
    added := plain.AddRecordWithoutException(id, data);
    r := checked.AddRecordWithException(id, data);
  }

  /** The same agreement for the two styles of delete. */
  method DelStylesAgree(plain: Store, checked: Store, id: string)
    returns (deleted: bool, r: Outcome<DbError>)
    requires plain != checked && plain.db == checked.db
    modifies plain, checked
    ensures deleted <==> r.Pass?
    ensures plain.db == checked.db
  {
    deleted := plain.DelRecordWithoutException(id);
    r := checked.DelRecordWithException(id);
  }

  /** The two styles of record lookup agree: None exactly when the
      exception is raised, otherwise the same record. */
  method GetStylesAgree(s: Store, id: string) returns (plain: Option<Record>, checked: Result<Record, DbError>)
    ensures plain.None? <==> checked.Failure?
    ensures plain.Some? ==> checked == Success(plain.value)
  {
    plain := s.GetRecordWithoutException(id);
    checked := s.GetRecordWithException(id);
  }

  /** The two styles of field lookup agree: None exactly when one of the two
      exceptions is raised, otherwise the same value. The emptiness test of
      the sentinel style adds no case: an empty record lacks every field. */
  method GetFieldStylesAgree(s: Store, id: string, field: string)
    returns (plain: Option<string>, checked: Result<string, DbError>)
    ensures plain.None? <==> checked.Failure?
    ensures plain.Some? ==> checked == Success(plain.value)
  {
    plain := s.GetRecordFieldWithoutException(id, field);
    checked := s.GetRecordFieldWithException(id, field);
  }

  /** A successful add followed by a lookup of the same identifier gives back
      the record just added; a refused add leaves the earlier record. */
  method AddThenGet(s: Store, id: string, data: Record) returns (added: bool, got: Option<Record>)
    modifies s
    ensures added ==> got == Some(data)
    ensures !added ==> id in old(s.db) && got == Some(old(s.db)[id])
  {
    added := s.AddRecordWithoutException(id, data);
    got := s.GetRecordWithoutException(id);
  }

  /** The sentinel-style walk-through: one record added twice, then three
      field lookups (present, unknown identifier, unknown field). */
  method SentinelWalkThrough()
    returns (first: bool, second: bool, mail: Option<string>, anonymous: Option<string>, email: Option<string>)
    ensures first && !second
    ensures mail == Some("jdoe@example.com")
    ensures anonymous == None && email == None
  {
    var jdoe := map["username" := "@jdoe", "mail" := "jdoe@example.com"];
    var s := new Store();
    first := s.AddRecordWithoutException(jdoe["username"], jdoe);
    second := s.AddRecordWithoutException(jdoe["username"], jdoe);
    mail := s.GetRecordFieldWithoutException(jdoe["username"], "mail");
    anonymous := s.GetRecordFieldWithoutException("anonymous", "mail");
    email := s.GetRecordFieldWithoutException(jdoe["username"], "email");
  }

  /** The exception-style walk-through: the second add raises
      IdentifierAlreadyExists, an unknown identifier raises
      IdentifierNotExists and an unknown field raises FieldNotExists. */
  method ExceptionWalkThrough()
    returns (first: Outcome<DbError>, second: Outcome<DbError>,
             mail: Result<string, DbError>, anonymous: Result<string, DbError>, email: Result<string, DbError>)
    ensures first == Pass && second == Fail(IdentifierAlreadyExists)
    ensures mail == Success("adoe@example.com")
    ensures anonymous == Failure(IdentifierNotExists)
    ensures email == Failure(FieldNotExists)
  {
    var adoe := map["username" := "@adoe", "mail" := "adoe@example.com"];
    var s := new Store();
    first := s.AddRecordWithException(adoe["username"], adoe);
    second := s.AddRecordWithException(adoe["username"], adoe);
    mail := s.GetRecordFieldWithException(adoe["username"], "mail");
    anonymous := s.GetRecordFieldWithException("anonymous", "mail");
    email := s.GetRecordFieldWithException(adoe["username"], "email");
  }
}
