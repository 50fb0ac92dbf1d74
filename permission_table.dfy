/**
 * The permission table: builds "."-delimited assertion keys and single-entry
 * assertion records, and stores and looks them up in the permission-table
 * store, modelled as a map from key to permission mask.
 */
module PermissionTables {
  import opened Wrappers
  import opened KeyCodec
  import Permissions

  /** The named permission masks of the table. */
  const RWD := 7
  const RW := 6
  const RD := 5
  const R := 4
  const WD := 3
  const W := 2
  const D := 1
  const N := 0

  /** The delimiter the table's constructor fixes. */
  const DELIMITER: char := '.'

  /** Each named mask is the fold of its letters into an empty mask. */
  lemma ConstantsMatchLetters()
    ensures R == Permissions.Combine(N, [Permissions.Str("r")]) == Permissions.READ
    ensures W == Permissions.Combine(N, [Permissions.Str("w")]) == Permissions.WRITE
    ensures D == Permissions.Combine(N, [Permissions.Str("d")]) == Permissions.DELETE
    ensures N == Permissions.Combine(RWD, [Permissions.Str("n")]) == Permissions.NONE
    ensures RW == Permissions.Combine(N, [Permissions.Str("r"), Permissions.Str("w")])
    ensures RD == Permissions.Combine(N, [Permissions.Str("r"), Permissions.Str("d")])
    ensures WD == Permissions.Combine(N, [Permissions.Str("w"), Permissions.Str("d")])
    ensures RWD == Permissions.Combine(N, [Permissions.Str("r"), Permissions.Str("w"), Permissions.Str("d")])
  {
    var r, w, d := Permissions.Str("r"), Permissions.Str("w"), Permissions.Str("d");
    assert [r, w][..1] == [r];
    assert [r, d][..1] == [r];
    assert [w, d][..1] == [w];
    assert [r, w, d][..2] == [r, w];
  }

  /** The key parts of a 4-tuple, in key order. */
  function Parts(scopeModel: string, scopeId: string, entityModel: string, entityId: string): KeyParts {
    KeyParts(scopeModel, scopeId, entityModel, entityId)
  }

  /** buildAssertionKey: the four parts joined by ".". */
  function BuildAssertionKey(scopeModel: string, scopeId: string, entityModel: string, entityId: string): (key: string)
    ensures |key| >= 3
    ensures DelimiterFree(DELIMITER, Parts(scopeModel, scopeId, entityModel, entityId)) ==>
              multiset(key)[DELIMITER] == 3
              && ParseKey(DELIMITER, key) == Some(Parts(scopeModel, scopeId, entityModel, entityId))
  {
    var p := Parts(scopeModel, scopeId, entityModel, entityId);
    var key := BuildKey(DELIMITER, p);
    assert DelimiterFree(DELIMITER, p) ==> ParseKey(DELIMITER, key) == Some(p) by {
      if DelimiterFree(DELIMITER, p) {
        ParseBuildKey(DELIMITER, p);
      }
    }
    key
  }

  /** One key/value pair of an assertion record; records keep their keys in insertion order. */
  datatype Entry = Entry(key: string, permission: int)

  /** buildAssertion: a record with exactly one entry, from the built key to the permission. */
  function BuildAssertion(scopeModel: string, scopeId: string, entityModel: string, entityId: string,
                          permission: int): (record: seq<Entry>)
    ensures |record| == 1
    ensures record[0].key == BuildAssertionKey(scopeModel, scopeId, entityModel, entityId)
    ensures record[0].permission == permission
  {
    [Entry(BuildAssertionKey(scopeModel, scopeId, entityModel, entityId), permission)]
  }

  /** Errors of the store. */
  datatype StoreError =
    | NoEntry    // the record to add has no key/value pair
    | InvalidId  // the key to look up is empty

  /** The store after adding a record: its first entry is set; an empty record is refused. */
  function Put(store: map<string, int>, record: seq<Entry>): (r: Result<map<string, int>, StoreError>)
    ensures r.Err? <==> record == []
    ensures r.Err? ==> r.error == NoEntry
    ensures r.Ok? ==> r.value.Keys == store.Keys + {record[0].key}
                      && r.value[record[0].key] == record[0].permission
                      && forall k :: k in store && k != record[0].key ==> r.value[k] == store[k]
  {
    if record == [] then Err(NoEntry)
    else Ok(store[record[0].key := record[0].permission])
  }

  /** The stored permission under a key, None when there is none; an empty key is refused. */
  function Lookup(store: map<string, int>, key: string): (r: Result<Option<int>, StoreError>)
    ensures r.Err? <==> key == ""
    ensures r.Err? ==> r.error == InvalidId
    ensures r.Ok? ==> (r.value.Some? <==> key in store) && (r.value.Some? ==> r.value.value == store[key])
  {
    if key == "" then Err(InvalidId)
    else if key in store then Ok(Some(store[key]))
    else Ok(None)
  }

  /** Adding an assertion and then getting its key gives back its permission. */
  lemma GetAfterAdd(store: map<string, int>, scopeModel: string, scopeId: string,
                    entityModel: string, entityId: string, permission: int)
    ensures Put(store, BuildAssertion(scopeModel, scopeId, entityModel, entityId, permission)).Ok?
    ensures Lookup(Put(store, BuildAssertion(scopeModel, scopeId, entityModel, entityId, permission)).value,
                   BuildAssertionKey(scopeModel, scopeId, entityModel, entityId)) == Ok(Some(permission))
  {
  }

  /** Adding a record changes no other key. */
  lemma AddLeavesOtherKeys(store: map<string, int>, record: seq<Entry>, key: string)
    requires record != [] && key != record[0].key
    ensures Put(store, record).Ok?
    ensures Lookup(Put(store, record).value, key) == Lookup(store, key)
  {
  }

  /** Adding an assertion does not disturb the assertion of any other delimiter-free 4-tuple. */
  lemma AddLeavesOtherTuples(store: map<string, int>, p: KeyParts, q: KeyParts, permission: int)
    requires DelimiterFree(DELIMITER, p) && DelimiterFree(DELIMITER, q) && p != q
    ensures Put(store, BuildAssertion(p.scopeModel, p.scopeId, p.entityModel, p.entityId, permission)).Ok?
    ensures var after := Put(store, BuildAssertion(p.scopeModel, p.scopeId, p.entityModel, p.entityId, permission)).value;
            Lookup(after, BuildAssertionKey(q.scopeModel, q.scopeId, q.entityModel, q.entityId))
            == Lookup(store, BuildAssertionKey(q.scopeModel, q.scopeId, q.entityModel, q.entityId))
  {
    var kp := BuildAssertionKey(p.scopeModel, p.scopeId, p.entityModel, p.entityId);
    var kq := BuildAssertionKey(q.scopeModel, q.scopeId, q.entityModel, q.entityId);
    if kp == kq {
      BuildKeyInjective(DELIMITER, p, q);
    }
    AddLeavesOtherKeys(store, BuildAssertion(p.scopeModel, p.scopeId, p.entityModel, p.entityId, permission), kq);
  }

  /**
   * A permission table over its store. The store belongs to the
   * permission-table database adapter; here it is a map the table updates.
   */
  class PermissionTable {
    var store: map<string, int>

    constructor (store: map<string, int>)
      ensures this.store == store
    {
      this.store := store;
    }

    /** add: stores the record's first entry under its key. */
    method Add(record: seq<Entry>) returns (err: Option<StoreError>)
      modifies this
      ensures record == [] ==> err == Some(NoEntry) && store == old(store)
      ensures record != [] ==> err.None? && store == old(store)[record[0].key := record[0].permission]
      ensures Put(old(store), record).Ok? ==> store == Put(old(store), record).value
    {
      if record == [] {
        err := Some(NoEntry);
      } else {
        store := store[record[0].key := record[0].permission];
        err := None;
      }
    }

    /** get: the permission stored under the key. */
    method Get(key: string) returns (r: Result<Option<int>, StoreError>)
      ensures key == "" ==> r == Err(InvalidId)
      ensures key != "" && key in store ==> r == Ok(Some(store[key]))
      ensures key != "" && key !in store ==> r == Ok(None)
    {
      if key == "" {
        r := Err(InvalidId);
      } else if key in store {
        r := Ok(Some(store[key]));
      } else {
        r := Ok(None);
      }
    }

    /** buildAndAdd: adds the assertion record built from the parts. */
    method BuildAndAdd(scopeModel: string, scopeId: string, entityModel: string, entityId: string,
                       permission: int) returns (err: Option<StoreError>)
      modifies this
      ensures err.None?
      ensures store == old(store)[BuildAssertionKey(scopeModel, scopeId, entityModel, entityId) := permission]
    {
      err := Add(BuildAssertion(scopeModel, scopeId, entityModel, entityId, permission));
    }

    /** buildAndGet: gets the permission stored under the key built from the parts. */
    method BuildAndGet(scopeModel: string, scopeId: string, entityModel: string, entityId: string)
      returns (r: Result<Option<int>, StoreError>)
      ensures r == Lookup(store, BuildAssertionKey(scopeModel, scopeId, entityModel, entityId))
    {
      r := Get(BuildAssertionKey(scopeModel, scopeId, entityModel, entityId));
    }
  }

  /** A table client: what is added under a 4-tuple is what is then got back. */
  method AddThenGet(table: PermissionTable, scopeModel: string, scopeId: string,
                    entityModel: string, entityId: string, permission: int)
    returns (r: Result<Option<int>, StoreError>)
    modifies table
    ensures r == Ok(Some(permission))
  {
    var err := table.BuildAndAdd(scopeModel, scopeId, entityModel, entityId, permission);
    r := table.BuildAndGet(scopeModel, scopeId, entityModel, entityId);
  }
}
