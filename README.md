# Observer registry and key/value stores, modelled in Dafny

This project models three small in-memory components of a Python teaching
repository and proves their behaviour:

- **`EventManager`** (`modules/core/event.py`): an ordered list of observers.
  `attach` appends (duplicates included), `detach` removes the first matching
  entry and fails when there is none, and `notify` calls
  `update(event_type, data)` on every entry in list order. Observers are
  opaque identities (the type parameter `O`, compared with `==` as the list's
  `remove` does). The abstract `Observer.update` is the delivery target: each call
  `notify` makes is a `Delivery(observer, eventType, data)`, and `Notify`
  returns the ordered sequence of them. `Notify` has no `modifies` clause, so
  it cannot change the registry.
- **The module-level store** (`modules/utils/database.py`): the global
  dictionary `__db` is the `db` field of class `Database.Store`. Add, delete,
  get and get-field come in a sentinel style (`bool` or `None`, here `bool` or
  `Option`) and an exception style. In the exception style the three error
  classes are the tags of `Records.DbError`, returned as an `Outcome` or a
  `Result`.
- **The class store** (`modules/utils/database_v2.py`): class
  `DatabaseV2.Database` with the same operations in exception style only,
  plus `GetAllRecords`.

A record is a `map<string, string>`: the repository stores dictionaries of
string fields, and the field getters return `str`. The table of records is a
`map<string, Record>` (`Records.Table`). Files: `wrappers.dfy` (Option,
Result, Outcome), `records.dfy` (shared types, error kinds, table lemmas),
`event.dfy`, `database.dfy`, `database_v2.dfy`.

## Model

| member | source | states |
|---|---|---|
| `Event.FirstIndex` | modules/core/event.py:18-20 | for a registered `o`, the position `remove` takes out: it holds `o` and no earlier entry is `o` |
| `Event.RemoveFirst` | modules/core/event.py:20 | the list after `remove(o)` is one shorter and has exactly one occurrence of `o` fewer, with all other multiplicities kept |
| `Event.RemoveFirstSplit` | modules/core/event.py:18-20 | for any list `p + [o] + q` with `o` not in `p`, removal leaves `p + q`: only the first occurrence goes and the rest keep their relative order |
| `Event.AttachThenDetach` | modules/core/event.py:14-20 | attaching an observer that was not registered and then detaching it restores the original list |
| `Event.DetachLastOccurrence` | modules/core/event.py:18-20 | removing the only occurrence of `o` leaves `o` unregistered, so a further detach fails |
| `Event.EventManager.constructor` | modules/core/event.py:11-12 | a new registry has no observers |
| `Event.EventManager.Attach` | modules/core/event.py:14-16 | never fails and does no duplicate check: `o` goes at the end, earlier entries unchanged, length grows by one |
| `Event.EventManager.Detach` | modules/core/event.py:18-20 | succeeds exactly when `o` is registered and then removes its first occurrence; otherwise fails with ObserverNotFound and changes nothing |
| `Event.EventManager.Notify` | modules/core/event.py:22-25 | one delivery of `(eventType, data)` per registry entry, in registration order, duplicates delivered once per occurrence; an empty registry yields none; the registry is unchanged |
| `Event.RegisterScenario` | main.py:13-32 | three observers attached in order each receive `("register", {"username": u})` once, in that order |
| `Event.DuplicateScenario` | modules/core/event.py:14-25 | an observer attached twice is notified twice; two detaches succeed, the third fails, and a later notify delivers nothing |
| `Records.InsertFresh` | modules/utils/database_v2.py:29-32 | adding a fresh identifier maps it to the record, adds exactly that key and keeps every other key and record |
| `Records.RemovePresent` | modules/utils/database_v2.py:34-37 | removing a present identifier drops exactly that key and keeps every other key and record |
| `Records.AddThenDeleteRestores` | modules/utils/database_v2.py:29-37 | a successful add followed by a delete of the same identifier restores the previous store |
| `Records.DeleteThenAddRestores` | modules/utils/database.py:46-91 | a successful delete followed by re-adding the removed record restores the previous store |
| `Database.Store.constructor` | modules/utils/database.py:1 | the module-level dictionary starts empty |
| `Database.Store.AddRecordWithoutException` | modules/utils/database.py:34-47 | answers false and changes nothing when the identifier is a key; otherwise maps it to the record, answers true and changes no other key |
| `Database.Store.AddRecordWithException` | modules/utils/database.py:50-62 | fails with IdentifierAlreadyExists and changes nothing when the identifier is a key; otherwise maps it to the record and changes no other key |
| `Database.Store.DelRecordWithoutException` | modules/utils/database.py:65-77 | answers false and changes nothing for an absent identifier; otherwise removes only that key and answers true |
| `Database.Store.DelRecordWithException` | modules/utils/database.py:80-91 | fails with IdentifierNotExists and changes nothing for an absent identifier; otherwise removes only that key |
| `Database.Store.GetRecordWithoutException` | modules/utils/database.py:94-105 | None exactly when the identifier is absent, otherwise the stored record; read-only |
| `Database.Store.GetRecordWithException` | modules/utils/database.py:108-122 | IdentifierNotExists exactly when the identifier is absent, otherwise the stored record; read-only |
| `Database.Store.GetRecordFieldWithoutException` | modules/utils/database.py:125-131 | None exactly when the identifier is missing, its record is empty or lacks the field; otherwise `record[field]`; read-only |
| `Database.Store.GetRecordFieldWithException` | modules/utils/database.py:134-138 | IdentifierNotExists for a missing identifier, FieldNotExists for a missing field, otherwise `record[field]`; read-only |
| `Database.AddStylesAgree` | modules/utils/database.py:44-62 | on equal stores the exception style raises exactly when the sentinel style answers false, and both leave equal stores |
| `Database.DelStylesAgree` | modules/utils/database.py:74-91 | on equal stores the two delete styles fail together and leave equal stores |
| `Database.GetStylesAgree` | modules/utils/database.py:103-122 | None exactly when IdentifierNotExists is raised, otherwise the same record |
| `Database.GetFieldStylesAgree` | modules/utils/database.py:125-138 | None exactly when one of the two errors is raised, otherwise the same value; the empty-record test adds no case |
| `Database.AddThenGet` | modules/utils/database.py:44-105 | after a successful add, getting the identifier returns the record just added; after a refused add, the earlier record |
| `Database.SentinelWalkThrough` | main.py:85-94 | the second add of one record answers false; lookups of a present field, an unknown identifier and an unknown field give the mail, None and None |
| `Database.ExceptionWalkThrough` | main.py:96-109 | the second add raises IdentifierAlreadyExists; an unknown identifier raises IdentifierNotExists and an unknown field FieldNotExists |
| `DatabaseV2.Database.constructor` | modules/utils/database_v2.py:26-27 | a new instance has an empty store |
| `DatabaseV2.Database.AddRecord` | modules/utils/database_v2.py:29-32 | fails with IdentifierAlreadyExists and changes nothing when the identifier is present; otherwise maps it to the record and changes nothing else |
| `DatabaseV2.Database.DelRecord` | modules/utils/database_v2.py:34-37 | fails with IdentifierNotExists and changes nothing when the identifier is absent; otherwise removes only that key |
| `DatabaseV2.Database.GetRecord` | modules/utils/database_v2.py:39-42 | IdentifierNotExists exactly when the identifier is absent, otherwise the stored record; read-only |
| `DatabaseV2.Database.GetAllRecords` | modules/utils/database_v2.py:44-45 | the whole current store: the same identifiers with the same records |
| `DatabaseV2.Database.GetRecordField` | modules/utils/database_v2.py:47-51 | IdentifierNotExists for a missing identifier, FieldNotExists for a missing field, otherwise `record[field]`; read-only |
| `DatabaseV2.Populate` | main.py:171-180 | adding entries one by one to a new instance succeeds exactly when their identifiers are distinct, and then the store's key set is exactly those identifiers, each with its record; otherwise IdentifierAlreadyExists ends the run |

## Left out

- Failure propagation out of `notify`: an exception raised by one observer's `update` aborts the remaining deliveries. That is behaviour of the opaque callback, so `Notify` models every `update` as returning normally.
- What each observer does on `update` (modules/observer/log.py, mail.py, slack.py): printing and logging only.
- The exception message strings: the three error kinds are tags without text.
- Python reference sharing: stored dictionaries are shared by reference, and `get_all_records` hands out the internal dictionary itself. Records here are immutable values, so later mutation of a record or of the returned dictionary through an alias is not modelled.
- Field values other than strings, and a stored field whose value is `None` (the sentinel style could not tell it from a missing field): the model stores string values only.
- The walk-throughs of main.py: their random names (Faker), console output, the logging setup (modules/core/log.py), the paginated listing over a network API and the username formatting are not part of this model. Only their store and registry calls appear: `Database.SentinelWalkThrough` and `Database.ExceptionWalkThrough` use the walk-through's fixed records, while `Event.RegisterScenario` and `DatabaseV2.Populate` take arbitrary observers, usernames and entries where the source draws names from Faker.
- `DatabaseV2.Database.GetAllRecords`: a Python dictionary iterates (and is printed) in insertion order, and a `map` has no order, so the order of the returned records is not modelled; only which identifiers map to which records is.
- `Records.DeleteThenAddRestores`: "restores" means dictionary equality, which ignores order; after a delete and re-add the identifier moves to the end of the dictionary's iteration order, which the model does not capture.
- database.py and database_v2.py each define their own three exception classes, so an `except` for one module's class does not catch the other's; the model merges them into the one tag set `Records.DbError`, which is harmless because no modelled code mixes the two modules.
- The single global dictionary of database.py: the model makes it an object of class `Database.Store` so that it can be reasoned about, and the style-agreement methods use two such objects with equal contents.
