/** The IndexedDB database "MusicPlayerDB" (script.js:30-183): a schema version and named
    object stores, each a map from key to record. An object URL made from a stored record is
    modelled as the pair (store, key) it came from. */
module BlobStore {
  import opened Common

  newtype byte = x: int | 0 <= x < 256

  /** A file handed over by the page: its name, MIME type and contents. */
  datatype File = File(name: string, mime: string, data: seq<byte>)

  /** The record `saveFileToIndexedDB` adds: `{id, name, type, data}`. */
  datatype BlobRecord = BlobRecord(id: Id, name: string, mime: string, data: seq<byte>)

  /** `URL.createObjectURL` of a record read back from a store. */
  datatype Url = ObjectUrl(store: string, id: Id)

  type Store = map<Id, BlobRecord>

  datatype Database = Database(version: nat, stores: map<string, Store>)

  datatype DbError = NotInitialized | StoreNotFound(store: string) | KeyExists(id: Id) | VersionError(version: nat)

  /** The version `openDatabase` asks for. */
  const SchemaVersion: nat := 2
  const AudioStore := "audioFiles"
  const ImageStore := "images"

  /** The database is open and holds the named store; every operation demands it. */
  predicate StoreReady(db: Option<Database>, store: string)
  {
    db.Some? && store in db.value.stores
  }

  predicate HasStores(d: Database)
  {
    AudioStore in d.stores && ImageStore in d.stores
  }

  /** The record under `id` in `store`, if any. */
  function Lookup(db: Option<Database>, store: string, id: Id): Option<BlobRecord>
  {
    if StoreReady(db, store) && id in db.value.stores[store] then Some(db.value.stores[store][id]) else None
  }

  /** `onupgradeneeded` (script.js:62-79): both stores are dropped if present and created
      anew, empty; any other store is left alone. */
  function Upgrade(stores: map<string, Store>): (r: map<string, Store>)
    ensures r.Keys == stores.Keys + {AudioStore, ImageStore}
    ensures r[AudioStore] == map[] && r[ImageStore] == map[]
    ensures forall n :: n in stores && n != AudioStore && n != ImageStore ==> r[n] == stores[n]
  {
    var dropped := stores - {AudioStore, ImageStore};
    dropped[AudioStore := map[]][ImageStore := map[]]
  }

  /** `openDatabase` (script.js:50-86) against what is on disk: a missing or older database
      is upgraded to version 2, version 2 opens as it is, a newer one fails with a version
      error. */
  function OpenDatabase(disk: Option<Database>): (r: Result<Database, DbError>)
    ensures r.Ok? <==> disk.None? || disk.value.version <= SchemaVersion
    ensures r.Ok? ==> r.value.version == SchemaVersion
    ensures r.Ok? && (disk.None? || disk.value.version < SchemaVersion) ==>
      HasStores(r.value) && r.value.stores[AudioStore] == map[] && r.value.stores[ImageStore] == map[]
    ensures disk.Some? && disk.value.version == SchemaVersion ==> r == Ok(disk.value)
  {
    match disk
    case None => Ok(Database(SchemaVersion, Upgrade(map[])))
    case Some(d) =>
      if d.version < SchemaVersion then Ok(Database(SchemaVersion, Upgrade(d.stores)))
      else if d.version == SchemaVersion then Ok(d)
      else Err(VersionError(d.version))
  }

  /** The database `initializeDatabase` (script.js:30-48) ends up with: if opening yields a
      database without both stores, it is deleted and opened afresh. Either way a database
      that opens holds both stores, and an intact version-2 database keeps its contents. */
  function InitializeDatabase(disk: Option<Database>): (r: Result<Database, DbError>)
    ensures r.Err? <==> disk.Some? && disk.value.version > SchemaVersion
    ensures r.Ok? ==> HasStores(r.value) && r.value.version == SchemaVersion
    ensures disk.Some? && disk.value.version == SchemaVersion && HasStores(disk.value) ==> r == Ok(disk.value)
    ensures disk.Some? && disk.value.version == SchemaVersion && !HasStores(disk.value) ==>
      r == Ok(Database(SchemaVersion, map[AudioStore := map[], ImageStore := map[]]))
  {
    match OpenDatabase(disk)
    case Err(e) => Err(e)
    case Ok(d) =>
      if HasStores(d) then Ok(d)
      else
        assert Upgrade(map[]) == map[AudioStore := map[], ImageStore := map[]];
        OpenDatabase(None)
  }

  /** `saveFileToIndexedDB(file, store)` (script.js:100-141) under the fresh key `id`: it fails
      when the database is not open, when the store is missing, and (as `add` does) when the
      key is taken; otherwise exactly that record is added. */
  function SaveFile(db: Option<Database>, store: string, file: File, id: Id): (r: Result<Database, DbError>)
    ensures r.Ok? <==> StoreReady(db, store) && Lookup(db, store, id).None?
    ensures db.None? ==> r == Err(NotInitialized)
    ensures r.Ok? ==> r.value.version == db.value.version && r.value.stores.Keys == db.value.stores.Keys
    ensures r.Ok? ==> Lookup(Some(r.value), store, id) == Some(BlobRecord(id, file.name, file.mime, file.data))
    ensures r.Ok? ==> forall n, k :: (n != store || k != id) ==> Lookup(Some(r.value), n, k) == Lookup(db, n, k)
  {
    if db.None? then Err(NotInitialized)
    else if store !in db.value.stores then Err(StoreNotFound(store))
    else if id in db.value.stores[store] then Err(KeyExists(id))
    else
      var d := db.value;
      var updated: Store := d.stores[store][id := BlobRecord(id, file.name, file.mime, file.data)];
      Ok(d.(stores := d.stores[store := updated]))
  }

  /** `getFileFromIndexedDB(id, store)` (script.js:143-172): fails when the database is not
      open or the store is missing; otherwise an object URL for the record, or null when
      there is none. */
  function GetFile(db: Option<Database>, id: Id, store: string): (r: Result<Option<Url>, DbError>)
    ensures r.Ok? <==> StoreReady(db, store)
    ensures r.Ok? ==> (r.value.Some? <==> Lookup(db, store, id).Some?)
    ensures r.Ok? && r.value.Some? ==> r.value.value == ObjectUrl(store, id)
  {
    if db.None? then Err(NotInitialized)
    else if store !in db.value.stores then Err(StoreNotFound(store))
    else if id in db.value.stores[store] then Ok(Some(ObjectUrl(store, id)))
    else Ok(None)
  }

  /** `deleteFileFromIndexedDB(id, store)` (script.js:174-183): the transaction cannot be made
      without an open database holding the store; otherwise the key is gone afterwards,
      whether it was there or not, and nothing else changes. */
  function DeleteFile(db: Option<Database>, id: Id, store: string): (r: Result<Database, DbError>)
    ensures r.Ok? <==> StoreReady(db, store)
    ensures r.Ok? ==> r.value.version == db.value.version && r.value.stores.Keys == db.value.stores.Keys
    ensures r.Ok? ==> Lookup(Some(r.value), store, id).None?
    ensures r.Ok? ==> forall n, k :: (n != store || k != id) ==> Lookup(Some(r.value), n, k) == Lookup(db, n, k)
  {
    if db.None? then Err(NotInitialized)
    else if store !in db.value.stores then Err(StoreNotFound(store))
    else
      var d := db.value;
      Ok(d.(stores := d.stores[store := d.stores[store] - {id}]))
  }

  /** `objectStore(store).clear()` as `confirmReset` issues it (script.js:1004-1010). */
  function ClearStore(db: Option<Database>, store: string): (r: Result<Database, DbError>)
    ensures r.Ok? <==> StoreReady(db, store)
    ensures r.Ok? ==> r.value.version == db.value.version && r.value.stores.Keys == db.value.stores.Keys
    ensures r.Ok? ==> forall k :: Lookup(Some(r.value), store, k).None?
    ensures r.Ok? ==> forall n, k :: n != store ==> Lookup(Some(r.value), n, k) == Lookup(db, n, k)
  {
    if db.None? then Err(NotInitialized)
    else if store !in db.value.stores then Err(StoreNotFound(store))
    else
      var d := db.value;
      Ok(d.(stores := d.stores[store := map[]]))
  }

  /** A saved file can be fetched back at once. */
  lemma GetAfterSave(db: Option<Database>, store: string, file: File, id: Id)
    requires SaveFile(db, store, file, id).Ok?
    ensures GetFile(Some(SaveFile(db, store, file, id).value), id, store) == Ok(Some(ObjectUrl(store, id)))
  {
  }

  /** A deleted key fetches as null while the store remains usable. */
  lemma GetAfterDelete(db: Option<Database>, store: string, id: Id)
    requires DeleteFile(db, id, store).Ok?
    ensures GetFile(Some(DeleteFile(db, id, store).value), id, store) == Ok(None)
  {
  }
}
