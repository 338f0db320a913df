/** The data shared by both key/value stores: records, the table that holds
    them, the three error kinds, and facts about the table updates that the
    stores perform. */
module Records {

  /** A stored record: a dictionary from field names to field values. */
  type Record = map<string, string>

  /** The dictionary of records, keyed by identifier. */
  type Table = map<string, Record>

  /** The three exception classes of the stores, as tags. */
  datatype DbError = IdentifierAlreadyExists | IdentifierNotExists | FieldNotExists

  /** `a` and `b` hold the same keys with the same records, except possibly `id`. */
  ghost predicate AgreeExcept(a: Table, b: Table, id: string)
  {
    forall k :: k != id ==> (k in a <==> k in b) && (k in a ==> a[k] == b[k])
  }

  /** Adding a fresh identifier maps it to the record, grows the table by one
      key and touches no other key. */
  lemma InsertFresh(t: Table, id: string, d: Record)
    requires id !in t
    ensures id in t[id := d] && t[id := d][id] == d
    ensures (t[id := d]).Keys == t.Keys + {id}
    ensures AgreeExcept(t, t[id := d], id)
  {
  }

  /** Removing a present identifier drops exactly that key. */
  lemma RemovePresent(t: Table, id: string)
    requires id in t
    ensures id !in t - {id}
    ensures (t - {id}).Keys == t.Keys - {id}
    ensures AgreeExcept(t, t - {id}, id)
  {
  }

  /** Removing a freshly added identifier gives back the table before the add. */
  lemma AddThenDeleteRestores(t: Table, id: string, d: Record)
    requires id !in t
    ensures t[id := d] - {id} == t
  {
  }

  /** Adding back the record just removed gives back the table before the removal. */
  lemma DeleteThenAddRestores(t: Table, id: string)
    requires id in t
    ensures id !in t - {id}
    ensures (t - {id})[id := t[id]] == t
  {
  }

  /** No identifier occurs twice among `entries`. */
  ghost predicate DistinctIds(entries: seq<(string, Record)>)
  {
    forall i, j :: 0 <= i < j < |entries| ==> entries[i].0 != entries[j].0
  }

  /** The identifiers of `entries`. */
  ghost function Ids(entries: seq<(string, Record)>): set<string>
  {
    set i | 0 <= i < |entries| :: entries[i].0
  }
}
