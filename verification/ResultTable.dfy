// The search-result table: rows in the order they arrived, and a hash index from key to
// row. Results arrive in batches; a batch refreshes rows already held and appends the rest.

module ResultTable {

  import opened Prelude
  import opened RowIndex

  datatype Entry = Entry(connection: nat, sessionId: string, fileName: string, fileSize: int, sharerName: string)

  function KeyOf(e: Entry): string { ResultKey(e.connection, e.sessionId, e.fileName) }

  /** The first pass over a batch: rows the index knows are overwritten, in batch order. */
  function Refreshed(rows: seq<Entry>, batch: seq<Entry>): (r: seq<Entry>)
    ensures |r| == |rows| && Keys(KeyOf, r) == Keys(KeyOf, rows)
  {
    if batch == [] then rows
    else
      var r := Refreshed(rows, batch[..|batch| - 1]);
      var e := batch[|batch| - 1];
      var index := LastRows(Keys(KeyOf, rows));
      IndexAgrees(Keys(KeyOf, rows));
      if KeyOf(e) in index then
        assert Keys(KeyOf, r[index[KeyOf(e)] := e]) == Keys(KeyOf, r);
        r[index[KeyOf(e)] := e]
      else r
  }

  /** The entries of a batch that the index does not know, in batch order. */
  function Additions(keys: seq<string>, batch: seq<Entry>): (r: seq<Entry>)
    ensures forall e | e in r :: KeyOf(e) !in keys
  {
    if batch == [] then []
    else
      var e := batch[|batch| - 1];
      Additions(keys, batch[..|batch| - 1]) + if KeyOf(e) in keys then [] else [e]
  }

  function AddResults(rows: seq<Entry>, batch: seq<Entry>): seq<Entry> {
    Refreshed(rows, batch) + Additions(Keys(KeyOf, rows), batch)
  }

  /** Removing a session's rows, or all of a connection's when no session is given. */
  predicate Concerns(connection: nat, sessionId: Option<string>, e: Entry) {
    e.connection == connection && (sessionId.Some? ==> e.sessionId == sessionId.value)
  }

  function Concerning(connection: nat, sessionId: Option<string>): Entry -> bool {
    e => Concerns(connection, sessionId, e)
  }

  function Renamed(e: Entry, connection: nat, sessionId: string, displayName: string): Entry {
    if Concerns(connection, Some(sessionId), e) then e.(sharerName := displayName) else e
  }

  function UpdateSharerName(rows: seq<Entry>, connection: nat, sessionId: string, displayName: string): (r: seq<Entry>)
    ensures |r| == |rows|
    ensures forall i | 0 <= i < |rows| :: r[i] == Renamed(rows[i], connection, sessionId, displayName)
  {
    if rows == [] then []
    else
      var last := |rows| - 1;
      UpdateSharerName(rows[..last], connection, sessionId, displayName)
      + [Renamed(rows[last], connection, sessionId, displayName)]
  }

  // ----- The table as a map: the last row of each key -----

  function Table(rows: seq<Entry>): map<string, Entry> { Put(map[], rows) }

  function Put(m: map<string, Entry>, entries: seq<Entry>): map<string, Entry> {
    if entries == [] then m
    else
      var e := entries[|entries| - 1];
      Put(m, entries[..|entries| - 1])[KeyOf(e) := e]
  }

  lemma {:induction false} PutAppend(m: map<string, Entry>, a: seq<Entry>, b: seq<Entry>)
    ensures Put(m, a + b) == Put(Put(m, a), b)
  {
    if b == [] {
      assert a + b == a;
    } else {
      var last := |b| - 1;
      assert (a + b)[..|a + b| - 1] == a + b[..last];
      PutAppend(m, a, b[..last]);
    }
  }

  /** A removal by connection takes exactly the rows of that connection, and one by session
      exactly those of that session on it. */
  lemma RemovalByOwner(rows: seq<Entry>, connection: nat, sessionId: string)
    ensures forall e :: e in Without(rows, Concerning(connection, None)) <==> e in rows && e.connection != connection
    ensures forall e :: e in Without(rows, Concerning(connection, Some(sessionId))) <==>
      e in rows && !(e.connection == connection && e.sessionId == sessionId)
  {
    WithoutContents(rows, Concerning(connection, None));
    WithoutContents(rows, Concerning(connection, Some(sessionId)));
  }

  /** The table's keys are the rows' keys, and the index leads to the table's entries. */
  lemma {:induction false} TableIsIndexed(rows: seq<Entry>)
    ensures Table(rows).Keys == LastRows(Keys(KeyOf, rows)).Keys
    ensures forall k | k in LastRows(Keys(KeyOf, rows)) ::
      LastRows(Keys(KeyOf, rows))[k] < |rows| && Table(rows)[k] == rows[LastRows(Keys(KeyOf, rows))[k]]
  {
    IndexAgrees(Keys(KeyOf, rows));
    if rows != [] {
      var last := |rows| - 1;
      TableIsIndexed(rows[..last]);
      KeysTake(KeyOf, rows, last);
      IndexAgrees(Keys(KeyOf, rows)[..last]);
    }
  }

  /** Overwriting the row that the index gives for a key overwrites that key. */
  lemma {:induction false} OverwriteLast(rows: seq<Entry>, row: nat, e: Entry)
    requires row < |rows| && KeyOf(rows[row]) == KeyOf(e)
    requires forall j | row < j < |rows| :: KeyOf(rows[j]) != KeyOf(e)
    ensures Table(rows[row := e]) == Table(rows)[KeyOf(e) := e]
  {
    var last := |rows| - 1;
    if row < last {
      assert rows[row := e][..last] == rows[..last][row := e];
      OverwriteLast(rows[..last], row, e);
    } else {
      assert rows[row := e][..last] == rows[..last];
    }
  }

  lemma {:induction false} PutElsewhere(m: map<string, Entry>, entries: seq<Entry>, e: Entry)
    requires forall x | x in entries :: KeyOf(x) != KeyOf(e)
    ensures Put(m[KeyOf(e) := e], entries) == Put(m, entries)[KeyOf(e) := e]
  {
    if entries != [] {
      PutElsewhere(m, entries[..|entries| - 1], e);
      assert entries[|entries| - 1] in entries;
    }
  }

  /** A refresh reaches the table as if it had come after the additions so far. */
  lemma RefreshOne(keys: seq<string>, rows: seq<Entry>, added: seq<Entry>, e: Entry)
    requires Keys(KeyOf, rows) == keys && KeyOf(e) in LastRows(keys)
    requires forall x | x in added :: KeyOf(x) !in keys
    ensures LastRows(keys)[KeyOf(e)] < |rows|
    ensures Put(Table(rows[LastRows(keys)[KeyOf(e)] := e]), added) == Put(Table(rows), added)[KeyOf(e) := e]
  {
    IndexAgrees(keys);
    var row := LastRows(keys)[KeyOf(e)];
    assert forall j | 0 <= j < |rows| :: KeyOf(rows[j]) == keys[j];
    OverwriteLast(rows, row, e);
    PutElsewhere(Table(rows), added, e);
  }

  /** What a batch means: the two passes together amount to storing its entries one by one
      under their keys, in batch order, whatever is repeated. */
  lemma {:induction false} BatchStoresEachEntry(rows: seq<Entry>, batch: seq<Entry>)
    ensures Table(AddResults(rows, batch)) == Put(Table(rows), batch)
  {
    var keys := Keys(KeyOf, rows);
    PutAppend(map[], Refreshed(rows, batch), Additions(keys, batch));
    if batch != [] {
      var before := batch[..|batch| - 1];
      var e := batch[|batch| - 1];
      BatchStoresEachEntry(rows, before);
      var r, added := Refreshed(rows, before), Additions(keys, before);
      PutAppend(map[], r, added);
      IndexAgrees(keys);
      hide LastRows, Keys;
      assert Put(Table(rows), batch) == Put(Table(r), added)[KeyOf(e) := e];
      if KeyOf(e) in keys {
        RefreshOne(keys, r, added, e);
        assert Additions(keys, batch) == added;
      } else {
        assert Refreshed(rows, batch) == r;
        PutAppend(Table(r), added, [e]);
      }
    }
  }

  // ----- When rows and keys correspond one to one -----

  ghost predicate RepeatsNewKey(keys: seq<string>, batch: seq<Entry>) {
    exists i, j | 0 <= i < j < |batch| :: KeyOf(batch[i]) == KeyOf(batch[j]) && KeyOf(batch[i]) !in keys
  }

  lemma {:induction false} AdditionsCover(keys: seq<string>, batch: seq<Entry>)
    ensures forall e :: e in Additions(keys, batch) <==> e in batch && KeyOf(e) !in keys
  {
    if batch != [] {
      var last := |batch| - 1;
      AdditionsCover(keys, batch[..last]);
      assert batch == batch[..last] + [batch[last]];
    }
  }

  lemma NewKeySeen(keys: seq<string>, batch: seq<Entry>, k: string)
    requires k !in keys
    ensures k in Keys(KeyOf, Additions(keys, batch)) <==> exists i | 0 <= i < |batch| :: KeyOf(batch[i]) == k
  {
    hide Additions, Keys;
    AdditionsCover(keys, batch);
    KeyIsThere(KeyOf, Additions(keys, batch), k);
    if i :| 0 <= i < |batch| && KeyOf(batch[i]) == k {
      assert batch[i] in Additions(keys, batch);
    }
  }

  lemma {:induction false} AdditionsDistinct(keys: seq<string>, batch: seq<Entry>)
    ensures Distinct(Keys(KeyOf, Additions(keys, batch))) <==> !RepeatsNewKey(keys, batch)
  {
    hide Keys, Distinct, KeyOf;
    if batch == [] {
      NoKeys();
    } else {
      var last := |batch| - 1;
      var before, e := batch[..last], batch[last];
      var added := Additions(keys, before);
      AdditionsDistinct(keys, before);
      RepeatsSnoc(keys, before, e);
      assert before + [e] == batch;
      hide RepeatsNewKey;
      if KeyOf(e) !in keys {
        KeysSnoc(KeyOf, added, e);
        DistinctSnoc(Keys(KeyOf, added), KeyOf(e));
        NewKeySeen(keys, before, KeyOf(e));
      } else {
        assert added + [] == added;
      }
    }
  }

  lemma NoKeys()
    ensures Distinct(Keys(KeyOf, []))
  {
  }

  lemma RepeatsSnoc(keys: seq<string>, batch: seq<Entry>, e: Entry)
    ensures RepeatsNewKey(keys, batch + [e]) <==>
      RepeatsNewKey(keys, batch)
      || (KeyOf(e) !in keys && exists i | 0 <= i < |batch| :: KeyOf(batch[i]) == KeyOf(e))
  {
    var all := batch + [e];
    if RepeatsNewKey(keys, batch) {
      var i, j :| 0 <= i < j < |batch| && KeyOf(batch[i]) == KeyOf(batch[j]) && KeyOf(batch[i]) !in keys;
      assert all[i] == batch[i] && all[j] == batch[j];
    }
    if KeyOf(e) !in keys {
      if i :| 0 <= i < |batch| && KeyOf(batch[i]) == KeyOf(e) {
        assert all[i] == batch[i] && all[|batch|] == e;
      }
    }
  }

  /** A batch leaves every key on one row exactly when that was so before and the batch
      does not repeat a key the table does not hold yet: entries are only compared with
      the rows from before the batch, not with each other. */
  lemma BatchKeepsRowsDistinct(rows: seq<Entry>, batch: seq<Entry>)
    ensures Distinct(Keys(KeyOf, AddResults(rows, batch))) <==>
      Distinct(Keys(KeyOf, rows)) && !RepeatsNewKey(Keys(KeyOf, rows), batch)
  {
    hide Keys, Distinct, Additions, Refreshed, RepeatsNewKey;
    var keys := Keys(KeyOf, rows);
    var added := Additions(keys, batch);
    KeysAppend(KeyOf, Refreshed(rows, batch), added);
    AdditionsDistinct(keys, batch);
    assert forall i | 0 <= i < |added| :: Keys(KeyOf, added)[i] == KeyOf(added[i]) && added[i] in added;
    DistinctAppend(keys, Keys(KeyOf, added));
  }

  /** A removal takes one row, the last one with the key: the key is gone exactly when it
      was not on two rows. */
  lemma RemovalForgets(rows: seq<Entry>, key: string)
    ensures key !in Keys(KeyOf, RemoveKey(KeyOf, rows, key)) <==>
      forall i, j | 0 <= i < j < |rows| :: !(KeyOf(rows[i]) == key && KeyOf(rows[j]) == key)
  {
    hide Keys, LastRows, KeyOf;
    var r := RemoveKey(KeyOf, rows, key);
    var keys := Keys(KeyOf, rows);
    IndexAgrees(keys);
    if key in LastRows(keys) {
      var row := LastRows(keys)[key];
      assert Keys(KeyOf, r)[..row] == keys[..row];
      assert forall j | row <= j < |r| :: Keys(KeyOf, r)[j] == keys[j + 1];
      if i :| 0 <= i < row && keys[i] == key {
        assert Keys(KeyOf, r)[i] == key;
      }
    }
  }

  // ----- Operations, and what every run of them keeps -----

  datatype Operation =
    | Flush(batch: seq<Entry>)
    | Remove(connection: nat, sessionId: string, fileName: string)
    | RemoveAll(connection: nat, only: Option<string>)
    | Rename(connection: nat, sessionId: string, displayName: string)
    | Clear

  function Step(rows: seq<Entry>, o: Operation): seq<Entry> {
    match o
    case Flush(batch) => AddResults(rows, batch)
    case Remove(connection, sessionId, fileName) => RemoveKey(KeyOf, rows, ResultKey(connection, sessionId, fileName))
    case RemoveAll(connection, sessionId) => Without(rows, Concerning(connection, sessionId))
    case Rename(connection, sessionId, displayName) => UpdateSharerName(rows, connection, sessionId, displayName)
    case Clear => []
  }

  /** The same operations on a plain map from key to entry. */
  function MapStep(m: map<string, Entry>, o: Operation): map<string, Entry> {
    match o
    case Flush(batch) => Put(m, batch)
    case Remove(connection, sessionId, fileName) => m - {ResultKey(connection, sessionId, fileName)}
    case RemoveAll(connection, sessionId) => map k | k in m && !Concerns(connection, sessionId, m[k]) :: m[k]
    case Rename(connection, sessionId, displayName) =>
      map k | k in m :: Renamed(m[k], connection, sessionId, displayName)
    case Clear => map[]
  }

  function After(operations: seq<Operation>): seq<Entry> {
    if operations == [] then [] else Step(After(operations[..|operations| - 1]), operations[|operations| - 1])
  }

  function MapAfter(operations: seq<Operation>): map<string, Entry> {
    if operations == [] then map[] else MapStep(MapAfter(operations[..|operations| - 1]), operations[|operations| - 1])
  }

  ghost predicate WellBatched(operations: seq<Operation>) {
    forall n | 0 <= n < |operations| && operations[n].Flush? ::
      !RepeatsNewKey(Keys(KeyOf, After(operations[..n])), operations[n].batch)
  }

  /** The rows, and the entries of a map under their own keys, are the same. */
  ghost predicate Holds(rows: seq<Entry>, m: map<string, Entry>) {
    && (forall e | e in rows :: KeyOf(e) in m && m[KeyOf(e)] == e)
    && (forall k | k in m :: m[k] in rows && KeyOf(m[k]) == k)
  }

  lemma HoldsOnlyOne(rows: seq<Entry>, m: map<string, Entry>, n: map<string, Entry>)
    requires Holds(rows, m) && Holds(rows, n)
    ensures m == n
  {
    hide KeyOf;
    assert forall k | k in m :: m[k] in rows;
    assert forall k | k in n :: n[k] in rows;
  }

  lemma {:induction false} TableHolds(rows: seq<Entry>)
    requires Distinct(Keys(KeyOf, rows))
    ensures Holds(rows, Table(rows))
  {
    hide Keys, KeyOf, Distinct;
    if rows == [] {
    } else {
      var last := |rows| - 1;
      assert rows == rows[..last] + [rows[last]];
      KeysSnoc(KeyOf, rows[..last], rows[last]);
      DistinctSnoc(Keys(KeyOf, rows[..last]), KeyOf(rows[last]));
      TableHolds(rows[..last]);
      assert forall e | e in rows[..last] :: KeyOf(e) != KeyOf(rows[last]) by {
        KeyIsThere(KeyOf, rows[..last], KeyOf(rows[last]));
      }
    }
  }

  lemma RemoveRefines(rows: seq<Entry>, key: string)
    requires Distinct(Keys(KeyOf, rows))
    ensures Distinct(Keys(KeyOf, RemoveKey(KeyOf, rows, key)))
    ensures Table(RemoveKey(KeyOf, rows, key)) == Table(rows) - {key}
  {
    hide Table, KeyOf, Keys, LastRows, RemoveKey, Distinct;
    var r := RemoveKey(KeyOf, rows, key);
    TableHolds(rows);
    RemovedRows(KeyOf, rows, key);
    TableHolds(r);
    HoldsOnlyOne(r, Table(r), Table(rows) - {key});
  }

  lemma RemoveAllRefines(rows: seq<Entry>, connection: nat, sessionId: Option<string>)
    requires Distinct(Keys(KeyOf, rows))
    ensures Distinct(Keys(KeyOf, Without(rows, Concerning(connection, sessionId))))
    ensures Table(Without(rows, Concerning(connection, sessionId)))
         == MapStep(Table(rows), RemoveAll(connection, sessionId))
  {
    hide Keys, Table, KeyOf, Distinct;
    var r := Without(rows, Concerning(connection, sessionId));
    WithoutKeepsDistinct(KeyOf, rows, Concerning(connection, sessionId));
    WithoutContents(rows, Concerning(connection, sessionId));
    TableHolds(rows);
    TableHolds(r);
    HoldsOnlyOne(r, Table(r), MapStep(Table(rows), RemoveAll(connection, sessionId)));
  }

  lemma RenameRefines(rows: seq<Entry>, connection: nat, sessionId: string, displayName: string)
    requires Distinct(Keys(KeyOf, rows))
    ensures Keys(KeyOf, UpdateSharerName(rows, connection, sessionId, displayName)) == Keys(KeyOf, rows)
    ensures Table(UpdateSharerName(rows, connection, sessionId, displayName))
         == MapStep(Table(rows), Rename(connection, sessionId, displayName))
  {
    var r := UpdateSharerName(rows, connection, sessionId, displayName);
    SameKeys(KeyOf, rows, r);
    TableHolds(rows);
    TableHolds(r);
    hide Keys, Table, Distinct;
    RenamedHolds(rows, r, Table(rows), connection, sessionId, displayName);
    HoldsOnlyOne(r, Table(r), MapStep(Table(rows), Rename(connection, sessionId, displayName)));
  }

  lemma RenamedHolds(rows: seq<Entry>, r: seq<Entry>, m: map<string, Entry>, connection: nat, sessionId: string,
                     displayName: string)
    requires Holds(rows, m) && |r| == |rows|
    requires forall i | 0 <= i < |rows| :: r[i] == Renamed(rows[i], connection, sessionId, displayName)
    ensures Holds(r, MapStep(m, Rename(connection, sessionId, displayName)))
  {
    var n := MapStep(m, Rename(connection, sessionId, displayName));
    forall e | e in r ensures KeyOf(e) in n && n[KeyOf(e)] == e {
      var i :| 0 <= i < |rows| && r[i] == e;
      assert rows[i] in rows && KeyOf(rows[i]) == KeyOf(e);
    }
    forall k | k in n ensures n[k] in r && KeyOf(n[k]) == k {
      var i :| 0 <= i < |rows| && rows[i] == m[k];
      assert r[i] == n[k];
    }
  }

  lemma StepRefines(rows: seq<Entry>, o: Operation)
    requires Distinct(Keys(KeyOf, rows)) && (o.Flush? ==> !RepeatsNewKey(Keys(KeyOf, rows), o.batch))
    ensures Distinct(Keys(KeyOf, Step(rows, o))) && Table(Step(rows, o)) == MapStep(Table(rows), o)
  {
    match o
    case Flush(batch) =>
      BatchKeepsRowsDistinct(rows, batch);
      BatchStoresEachEntry(rows, batch);
    case Remove(connection, sessionId, fileName) => RemoveRefines(rows, ResultKey(connection, sessionId, fileName));
    case RemoveAll(connection, sessionId) => RemoveAllRefines(rows, connection, sessionId);
    case Rename(connection, sessionId, displayName) => RenameRefines(rows, connection, sessionId, displayName);
    case Clear =>
  }

  /** The rows and their index refine a map. In every run in which no batch repeats a key
      that is new to the table, every key is on one row, the index finds every row, and
      the table is what the same operations make of a plain map. */
  lemma {:induction false} RowsRefineMap(operations: seq<Operation>)
    requires WellBatched(operations)
    ensures var rows := After(operations);
      && Distinct(Keys(KeyOf, rows))
      && (forall i | 0 <= i < |rows| ::
            KeyOf(rows[i]) in LastRows(Keys(KeyOf, rows)) && LastRows(Keys(KeyOf, rows))[KeyOf(rows[i])] == i)
      && Table(rows) == MapAfter(operations)
  {
    if operations != [] {
      var last := |operations| - 1;
      assert forall n | 0 <= n < last :: operations[..last][..n] == operations[..n];
      RowsRefineMap(operations[..last]);
      StepRefines(After(operations[..last]), operations[last]);
    }
    IndexFindsEveryRow(Keys(KeyOf, After(operations)));
  }

  /** A node announced twice between two flushes, not in the table before, ends up on two
      rows; when it is taken back, one of them stays for good. */
  lemma RepeatLeavesARow(e: Entry)
    ensures var operations := [Flush([e, e]), Remove(e.connection, e.sessionId, e.fileName)];
      After(operations) == [e] && MapAfter(operations) == map[]
  {
    var flush := [Flush([e, e])];
    var operations := [Flush([e, e]), Remove(e.connection, e.sessionId, e.fileName)];
    assert operations[..1] == flush && flush[..0] == [];
    TwiceInABatch(e);
    RemovedOnce(e);
    hide KeyOf, Put, AddResults, RemoveKey;
    assert After(flush) == [e, e];
    assert MapAfter(flush) == map[KeyOf(e) := e];
    assert KeyOf(e) == ResultKey(e.connection, e.sessionId, e.fileName) by {
      KeyIs(e);
    }
  }

  lemma KeyIs(e: Entry)
    ensures KeyOf(e) == ResultKey(e.connection, e.sessionId, e.fileName)
  {
  }

  lemma TwiceInABatch(e: Entry)
    ensures AddResults([], [e, e]) == [e, e] && Put(map[], [e, e]) == map[KeyOf(e) := e]
  {
    hide KeyOf, LastRows;
    assert [e, e][..1] == [e] && [e][..0] == [];
    assert Additions([], [e]) == [] + [e] == [e];
    assert Additions([], [e, e]) == [e] + [e];
    assert Refreshed([], [e]) == [] && Refreshed([], [e, e]) == [];
    assert Put(map[], [e]) == map[KeyOf(e) := e];
  }

  lemma RemovedOnce(e: Entry)
    ensures RemoveKey(KeyOf, [e, e], KeyOf(e)) == [e]
  {
    hide KeyOf, Keys, LastRows;
    var keys := Keys(KeyOf, [e, e]);
    assert keys[0] == keys[1] == KeyOf(e);
    IndexAgrees(keys);
    assert LastRows(keys)[KeyOf(e)] == 1;
    assert [e, e][..1] + [e, e][2..] == [e];
  }

  /** Taking a result back takes no other row, as long as session IDs have no newline. */
  lemma RemovalTakesOnlyItsOwn(rows: seq<Entry>, connection: nat, sessionId: string, fileName: string)
    requires Distinct(Keys(KeyOf, rows)) && '\n' !in sessionId && forall e | e in rows :: '\n' !in e.sessionId
    ensures forall e :: e in Step(rows, Remove(connection, sessionId, fileName)) <==>
      e in rows && !(e.connection == connection && e.sessionId == sessionId && e.fileName == fileName)
  {
    hide Keys, Distinct, LastRows, RemoveKey;
    var key := ResultKey(connection, sessionId, fileName);
    RemovedRows(KeyOf, rows, key);
    forall e | e in rows && KeyOf(e) == key
      ensures e.connection == connection && e.sessionId == sessionId && e.fileName == fileName
    {
      ResultKeyInjective(e.connection, e.sessionId, e.fileName, connection, sessionId, fileName);
    }
  }

  // ----- The model, step by step -----

  lemma AdditionsSnoc(keys: seq<string>, batch: seq<Entry>, i: nat)
    requires i < |batch|
    ensures Additions(keys, batch[..i + 1])
         == Additions(keys, batch[..i]) + if KeyOf(batch[i]) in keys then [] else [batch[i]]
  {
    assert batch[..i + 1][..i] == batch[..i];
  }

  lemma RefreshedSnoc(rows: seq<Entry>, batch: seq<Entry>, i: nat)
    requires i < |batch|
    ensures KeyOf(batch[i]) in LastRows(Keys(KeyOf, rows)) ==> LastRows(Keys(KeyOf, rows))[KeyOf(batch[i])] < |rows|
    ensures Refreshed(rows, batch[..i + 1]) ==
      if KeyOf(batch[i]) in LastRows(Keys(KeyOf, rows))
      then Refreshed(rows, batch[..i])[LastRows(Keys(KeyOf, rows))[KeyOf(batch[i])] := batch[i]]
      else Refreshed(rows, batch[..i])
  {
    hide Keys, LastRows, KeyOf;
    assert batch[..i + 1][..i] == batch[..i];
    IndexAgrees(Keys(KeyOf, rows));
  }

  lemma RenamedIs(e: Entry, connection: nat, sessionId: string, displayName: string)
    ensures Renamed(e, connection, sessionId, displayName) ==
      if e.connection == connection && e.sessionId == sessionId && e.sharerName != displayName
      then e.(sharerName := displayName) else e
  {
  }

  lemma RenamedRows(rows: seq<Entry>, r: seq<Entry>, connection: nat, sessionId: string, displayName: string)
    requires |r| == |rows|
    requires forall i | 0 <= i < |rows| :: r[i] == Renamed(rows[i], connection, sessionId, displayName)
    ensures Keys(KeyOf, r) == Keys(KeyOf, rows) && r == UpdateSharerName(rows, connection, sessionId, displayName)
  {
    SameKeys(KeyOf, rows, r);
  }

  class FileResultModel {
    var results: seq<Entry>
    var rowsByKey: map<string, nat>

    ghost predicate Valid()
      reads this
    {
      rowsByKey == LastRows(Keys(KeyOf, results))
    }

    constructor ()
      ensures Valid() && results == []
    {
      results, rowsByKey := [], map[];
    }

    method RebuildIndex()
      modifies this`rowsByKey
      ensures Valid()
    {
      hide Keys, LastRows, KeyOf;
      rowsByKey := map[];
      assert rowsByKey == LastRows(Keys(KeyOf, results)[..0]) by {
        EmptyIndex();
        assert Keys(KeyOf, results)[..0] == [];
      }
      for row := 0 to |results|
        invariant rowsByKey == LastRows(Keys(KeyOf, results)[..row])
      {
        IndexSnoc(Keys(KeyOf, results)[..row], KeyOf(results[row]));
        assert Keys(KeyOf, results)[..row + 1] == Keys(KeyOf, results)[..row] + [KeyOf(results[row])];
        rowsByKey := rowsByKey[KeyOf(results[row]) := row];
      }
      assert Keys(KeyOf, results)[..|results|] == Keys(KeyOf, results);
    }

    method FindRow(key: string) returns (row: int)
      requires Valid()
      ensures row < |results|
      ensures row >= 0 ==> KeyOf(results[row]) == key && forall j | row < j < |results| :: KeyOf(results[j]) != key
      ensures row < 0 ==> forall e | e in results :: KeyOf(e) != key
    {
      IndexAgrees(Keys(KeyOf, results));
      KeyIsThere(KeyOf, results, key);
      row := if key in rowsByKey then rowsByKey[key] else -1;
      assert forall j | 0 <= j < |results| :: Keys(KeyOf, results)[j] == KeyOf(results[j]);
    }

    /** First the rows already held are refreshed, then the others are appended. */
    method Add(entries: seq<Entry>)
      requires Valid()
      modifies this
      ensures Valid() && results == AddResults(old(results), entries)
    {
      ghost var before := results;
      if entries == [] {
        assert results + [] == results;
        return;
      }
      var additions := RefreshKnown(entries);
      Append(additions);
    }

    method RefreshKnown(entries: seq<Entry>) returns (additions: seq<Entry>)
      requires Valid()
      modifies this`results
      ensures Valid() && results == Refreshed(old(results), entries)
      ensures additions == Additions(Keys(KeyOf, old(results)), entries)
    {
      ghost var before := results;
      ghost var keys := Keys(KeyOf, before);
      additions := [];
      IndexAgrees(keys);
      for i := 0 to |entries|
        invariant results == Refreshed(before, entries[..i])
        invariant additions == Additions(keys, entries[..i])
      {
        hide Keys, LastRows, KeyOf, Refreshed, Additions;
        RefreshedSnoc(before, entries, i);
        AdditionsSnoc(keys, entries, i);
        var key := KeyOf(entries[i]);
        if key in rowsByKey {
          results := results[rowsByKey[key] := entries[i]];
        } else {
          additions := additions + [entries[i]];
        }
      }
      assert entries[..|entries|] == entries;
    }

    method Append(additions: seq<Entry>)
      requires Valid()
      modifies this
      ensures Valid() && results == old(results) + additions
    {
      hide Keys, LastRows, KeyOf;
      ghost var before := results;
      for i := 0 to |additions|
        invariant Valid() && results == before + additions[..i]
      {
        KeysSnoc(KeyOf, results, additions[i]);
        IndexSnoc(Keys(KeyOf, results), KeyOf(additions[i]));
        assert additions[..i + 1] == additions[..i] + [additions[i]];
        rowsByKey := rowsByKey[KeyOf(additions[i]) := |results|];
        results := results + [additions[i]];
      }
      assert additions[..|additions|] == additions;
    }

    method RemoveOne(connection: nat, sessionId: string, fileName: string)
      requires Valid()
      modifies this
      ensures Valid() && results == Step(old(results), Remove(connection, sessionId, fileName))
    {
      var key := ResultKey(connection, sessionId, fileName);
      if key !in rowsByKey {
        return;
      }
      var row := rowsByKey[key];
      IndexAgrees(Keys(KeyOf, results));
      results := results[..row] + results[row + 1..];
      RebuildIndex();
    }

    method KeptRows(connection: nat, sessionId: Option<string>) returns (kept: seq<Entry>)
      ensures kept == Without(results, Concerning(connection, sessionId))
    {
      kept := [];
      for i := 0 to |results|
        invariant kept == Without(results[..i], Concerning(connection, sessionId))
      {
        hide Without;
        WithoutSnoc(results, Concerning(connection, sessionId), i);
        if results[i].connection != connection || (sessionId.Some? && results[i].sessionId != sessionId.value) {
          kept := kept + [results[i]];
        }
      }
      assert results[..|results|] == results;
    }

    /** RemoveResultsForSession, and RemoveResultsForConnection without a session. */
    method RemoveResultsFor(connection: nat, sessionId: Option<string>)
      requires Valid()
      modifies this
      ensures Valid() && results == Step(old(results), RemoveAll(connection, sessionId))
    {
      var kept := KeptRows(connection, sessionId);
      if |kept| == |results| {
        WithoutAll(results, Concerning(connection, sessionId));
        return;
      }
      results := kept;
      RebuildIndex();
    }

    method RenameSharer(connection: nat, sessionId: string, displayName: string)
      requires Valid()
      modifies this
      ensures Valid() && results == Step(old(results), Rename(connection, sessionId, displayName))
    {
      hide Keys, LastRows, KeyOf, Concerns, Renamed;
      ghost var before := results;
      for row := 0 to |results|
        invariant |results| == |before| && rowsByKey == LastRows(Keys(KeyOf, before))
        invariant forall i | 0 <= i < row :: results[i] == Renamed(before[i], connection, sessionId, displayName)
        invariant forall i | row <= i < |before| :: results[i] == before[i]
      {
        var e := results[row];
        RenamedIs(e, connection, sessionId, displayName);
        if e.connection == connection && e.sessionId == sessionId && e.sharerName != displayName {
          results := results[row := e.(sharerName := displayName)];
        }
      }
      RenamedRows(before, results, connection, sessionId, displayName);
    }
  }
}
