// The user list: each server connection folds node events into a registry of users and
// tells its listener, which mirrors every connection's registry into one table model.

module UserMirror {

  import opened Prelude
  import opened RowIndex
  import QueryProtocol

  type Link = QueryProtocol.Link
  type SessionId = string

  const SESSION_ID_DEPTH: nat := 2
  const USER_NAME_DEPTH: nat := 4
  const FILE_INFO_DEPTH: nat := 5

  datatype UserRecord = UserRecord(
    sessionId: SessionId,
    userName: string,
    hostName: string,
    port: int,
    clientVersion: string,
    userStatus: string,
    uploadsCurrent: nat,
    uploadsMax: nat,
    bandwidthLabel: string,
    bandwidthBits: nat,
    fileCount: nat,
    isFirewalled: bool)

  /** A node path taken apart: its depth, and its clauses at the depths that matter. */
  datatype NodePath = NodePath(depth: nat, hostName: string, sessionId: SessionId, nodeName: string)

  /** The fields a node may carry. */
  datatype NodeData = NodeData(
    name: Option<string>,
    port: Option<int>,
    versionName: Option<string>,
    versionNumber: Option<string>,
    legacyVersion: Option<string>,
    status: Option<string>,
    uploadsCurrent: Option<nat>,
    uploadsMax: Option<nat>,
    bandwidthLabel: Option<string>,
    bandwidthBits: Option<nat>,
    fileCount: Option<nat>)

  /** What a connection tells its listener. */
  datatype Callback =
    | UserUpdated(user: UserRecord, isNew: bool)
    | UserLeft(user: UserRecord)
    | StateChanged(link: Link)

  /** told is everything the listener has been told so far. */
  datatype Connection = Connection(
    link: Link,
    users: map<SessionId, UserRecord>,
    localSessionId: SessionId,
    told: seq<Callback>)

  function NewUser(sessionId: SessionId): UserRecord {
    UserRecord(sessionId, "", "", 0, "", "", 0, 0, "", 0, 0, false)
  }

  function OrElse<T>(o: Option<T>, otherwise: T): T { if o.Some? then o.value else otherwise }

  function Version(d: NodeData, otherwise: string): string {
    if d.versionName.Some? && d.versionNumber.Some? then d.versionName.value + " v" + d.versionNumber.value
    else if d.legacyVersion.None? then otherwise
    else
      var legacy := d.legacyVersion.value;
      if legacy != "" && '0' <= legacy[0] <= '9' then "BeShare v" + legacy else legacy
  }

  /** How one node changes a user's record, and whether the listener is to hear of it. */
  function Described(u: UserRecord, path: NodePath, d: NodeData): (UserRecord, bool) {
    if "name" <= path.nodeName then
      (u.(userName := OrElse(d.name, u.userName), hostName := path.hostName, port := OrElse(d.port, u.port),
          clientVersion := Version(d, u.clientVersion)), true)
    else if "userstatus" <= path.nodeName then (u.(userStatus := OrElse(d.status, u.userStatus)), d.status.Some?)
    else if "uploadstats" <= path.nodeName then
      if d.uploadsCurrent.Some? && d.uploadsMax.Some?
      then (u.(uploadsCurrent := d.uploadsCurrent.value, uploadsMax := d.uploadsMax.value), true)
      else (u, false)
    else if "bandwidth" <= path.nodeName then
      if d.bandwidthLabel.Some? && d.bandwidthBits.Some?
      then (u.(bandwidthLabel := d.bandwidthLabel.value, bandwidthBits := d.bandwidthBits.value), true)
      else (u, false)
    else if "filecount" <= path.nodeName then (u.(fileCount := OrElse(d.fileCount, u.fileCount)), d.fileCount.Some?)
    else if "fires" <= path.nodeName then (u.(isFirewalled := true), true)
    else if "files" <= path.nodeName then (u.(isFirewalled := false), true)
    else (u, false)
  }

  /** The mirror rests on this: a record never changes without the listener being told. */
  lemma SilentMeansUnchanged(u: UserRecord, path: NodePath, d: NodeData)
    ensures !Described(u, path, d).1 ==> Described(u, path, d).0 == u
    ensures Described(u, path, d).0.sessionId == u.sessionId
  {
  }

  // ----- One connection -----

  function Tell(c: Connection, callbacks: seq<Callback>): Connection { c.(told := c.told + callbacks) }

  function SetState(c: Connection, link: Link): Connection {
    if c.link == link then c else Tell(c.(link := link), [StateChanged(link)])
  }

  function HandleUserNode(c: Connection, path: NodePath, d: NodeData): Connection {
    var isNew := path.sessionId !in c.users;
    var user := if isNew then NewUser(path.sessionId) else c.users[path.sessionId];
    var (described, didChange) := Described(user, path, d);
    var stored := c.(users := c.users[path.sessionId := described]);
    if didChange || isNew then Tell(stored, [UserUpdated(described, isNew)]) else stored
  }

  function HandleNodeUpdated(c: Connection, path: NodePath, d: NodeData): Connection {
    if path.depth < USER_NAME_DEPTH || path.sessionId == "" || path.depth == FILE_INFO_DEPTH then c
    else if path.sessionId == c.localSessionId then c
    else HandleUserNode(c, path, d)
  }

  predicate IsUserGone(path: NodePath) {
    path.depth == SESSION_ID_DEPTH || (path.depth == USER_NAME_DEPTH && "name" <= path.nodeName)
  }

  function HandleNodeRemoved(c: Connection, path: NodePath): Connection {
    if !IsUserGone(path) || path.sessionId == "" || path.sessionId !in c.users then c
    else Tell(c.(users := c.users - {path.sessionId}), [UserLeft(c.users[path.sessionId])])
  }

  /** The link is gone, in any of the ways it can go. */
  function Drop(c: Connection): Connection {
    SetState(c.(users := map[], localSessionId := ""), QueryProtocol.Disconnected)
  }

  datatype Event =
    | Dialled(reachable: bool)
    | LinkUp
    | LinkLost
    | Quit
    | SessionIdAssigned(sessionId: SessionId)
    | NodeUpdated(path: NodePath, data: NodeData)
    | NodeRemoved(path: NodePath)

  /** Messages arrive only while the link is up. */
  function ConnectionStep(c: Connection, e: Event): Connection {
    match e
    case Dialled(reachable) => if reachable then SetState(Drop(c), QueryProtocol.Connecting) else Drop(c)
    case LinkUp => if c.link.Connecting? then SetState(c, QueryProtocol.Connected) else c
    case LinkLost => Drop(c)
    case Quit => Drop(c)
    case SessionIdAssigned(id) => if c.link.Connected? then c.(localSessionId := id) else c
    case NodeUpdated(path, d) => if c.link.Connected? then HandleNodeUpdated(c, path, d) else c
    case NodeRemoved(path) => if c.link.Connected? then HandleNodeRemoved(c, path) else c
  }

  const NEW_CONNECTION: Connection := Connection(QueryProtocol.Disconnected, map[], "", [])

  ghost predicate Registered(c: Connection) {
    && (forall id | id in c.users :: c.users[id].sessionId == id)
    && (c.link.Disconnected? ==> c.users == map[] && c.localSessionId == "")
    && (!c.link.Connected? ==> c.users == map[])
  }

  lemma StepKeepsRegistered(c: Connection, e: Event)
    requires Registered(c)
    ensures Registered(ConnectionStep(c, e))
  {
    hide Described, IsUserGone;
    if e.NodeUpdated? {
      var id := e.path.sessionId;
      SilentMeansUnchanged(if id in c.users then c.users[id] else NewUser(id), e.path, e.data);
    }
  }

  // ----- The rows -----

  datatype Row = Row(connection: nat, user: UserRecord)

  function KeyOf(row: Row): string { UserKey(row.connection, row.user.sessionId) }

  function UpdateUser(rows: seq<Row>, row: Row): seq<Row> {
    var index := LastRows(Keys(KeyOf, rows));
    IndexAgrees(Keys(KeyOf, rows));
    if KeyOf(row) in index then rows[index[KeyOf(row)] := row] else rows + [row]
  }

  function OfConnection(connection: nat): Row -> bool { (row: Row) => row.connection == connection }

  /** The listener's part: what one callback does to the table. */
  function Heard(rows: seq<Row>, connection: nat, b: Callback): seq<Row> {
    match b
    case UserUpdated(user, _) => UpdateUser(rows, Row(connection, user))
    case UserLeft(user) => RemoveKey(KeyOf, rows, UserKey(connection, user.sessionId))
    case StateChanged(link) => if link.Disconnected? then Without(rows, OfConnection(connection)) else rows
  }

  function HeardAll(rows: seq<Row>, connection: nat, callbacks: seq<Callback>): seq<Row> {
    if callbacks == [] then rows
    else
      var last := |callbacks| - 1;
      Heard(HeardAll(rows, connection, callbacks[..last]), connection, callbacks[last])
  }

  // ----- What the table operations do to the set of rows -----

  lemma UpdatedRows(rows: seq<Row>, row: Row)
    requires Distinct(Keys(KeyOf, rows))
    ensures Distinct(Keys(KeyOf, UpdateUser(rows, row)))
    ensures forall e :: e in UpdateUser(rows, row) <==> e == row || (e in rows && KeyOf(e) != KeyOf(row))
  {
    hide Keys, LastRows, KeyOf, Distinct;
    var keys := Keys(KeyOf, rows);
    IndexAgrees(keys);
    if KeyOf(row) in LastRows(keys) {
      var i := LastRows(keys)[KeyOf(row)];
      var r := rows[i := row];
      assert keys[i] == KeyOf(rows[i]);
      SameKeys(KeyOf, rows, r);
      assert rows == rows[..i] + [rows[i]] + rows[i + 1..];
      assert r == rows[..i] + [row] + rows[i + 1..];
      CutOut(KeyOf, rows[..i], rows[i], rows[i + 1..]);
    } else {
      KeysSnoc(KeyOf, rows, row);
      DistinctSnoc(keys, KeyOf(row));
      KeyIsThere(KeyOf, rows, KeyOf(row));
    }
  }

  // ----- Several connections and one table -----

  datatype System = System(connections: map<nat, Connection>, rows: seq<Row>)

  datatype Action = Opened(connection: nat) | On(connection: nat, event: Event)

  function NewsOf(c: Connection, e: Event): seq<Callback> {
    var r := ConnectionStep(c, e);
    if |c.told| <= |r.told| then r.told[|c.told|..] else []
  }

  function Step(y: System, a: Action): System {
    match a
    case Opened(n) => if n in y.connections then y else y.(connections := y.connections[n := NEW_CONNECTION])
    case On(n, e) =>
      if n !in y.connections then y
      else
        var c := y.connections[n];
        System(y.connections[n := ConnectionStep(c, e)], HeardAll(y.rows, n, NewsOf(c, e)))
  }

  predicate InRegistry(connections: map<nat, Connection>, e: Row) {
    && e.connection in connections
    && e.user.sessionId in connections[e.connection].users
    && connections[e.connection].users[e.user.sessionId] == e.user
  }

  /** The rows are exactly the registries' records, each once. */
  ghost predicate Mirrors(y: System) {
    && Distinct(Keys(KeyOf, y.rows))
    && (forall e :: e in y.rows <==> InRegistry(y.connections, e))
    && (forall n | n in y.connections :: Registered(y.connections[n]))
  }

  lemma UpdateMirrors(y: System, n: nat, c: Connection, user: UserRecord)
    requires Mirrors(y) && n in y.connections
    requires Registered(c) && c.users == y.connections[n].users[user.sessionId := user]
    ensures Mirrors(System(y.connections[n := c], UpdateUser(y.rows, Row(n, user))))
  {
    hide Keys, Distinct;
    var r := System(y.connections[n := c], UpdateUser(y.rows, Row(n, user)));
    UpdatedRows(y.rows, Row(n, user));
    forall e ensures e in r.rows <==> InRegistry(r.connections, e) {
      if KeyOf(e) == KeyOf(Row(n, user)) {
        UserKeyInjective(e.connection, e.user.sessionId, n, user.sessionId);
      }
    }
  }

  lemma LeaveMirrors(y: System, n: nat, c: Connection, id: SessionId)
    requires Mirrors(y) && n in y.connections && Registered(c)
    requires c.users == y.connections[n].users - {id}
    ensures Mirrors(System(y.connections[n := c], RemoveKey(KeyOf, y.rows, UserKey(n, id))))
  {
    hide Keys, Distinct;
    var r := System(y.connections[n := c], RemoveKey(KeyOf, y.rows, UserKey(n, id)));
    RemovedRows(KeyOf, y.rows, UserKey(n, id));
    forall e ensures e in r.rows <==> InRegistry(r.connections, e) {
      if KeyOf(e) == UserKey(n, id) {
        UserKeyInjective(e.connection, e.user.sessionId, n, id);
      }
    }
  }

  lemma DropMirrors(y: System, n: nat, c: Connection)
    requires Mirrors(y) && n in y.connections && Registered(c) && c.users == map[]
    ensures Mirrors(System(y.connections[n := c], Without(y.rows, OfConnection(n))))
  {
    hide Keys, Distinct;
    WithoutContents(y.rows, OfConnection(n));
    WithoutKeepsDistinct(KeyOf, y.rows, OfConnection(n));
  }

  lemma SameUsersMirror(y: System, n: nat, c: Connection)
    requires Mirrors(y) && n in y.connections && Registered(c) && c.users == y.connections[n].users
    ensures Mirrors(System(y.connections[n := c], y.rows))
  {
    hide Keys, Distinct;
  }

  lemma HeardOne(rows: seq<Row>, n: nat, b: Callback)
    ensures HeardAll(rows, n, [b]) == Heard(rows, n, b)
  {
    assert [b][..0] == [];
  }

  lemma HeardTwo(rows: seq<Row>, n: nat, a: Callback, b: Callback)
    ensures HeardAll(rows, n, [a, b]) == Heard(Heard(rows, n, a), n, b)
  {
    assert [a, b][..1] == [a];
    HeardOne(rows, n, a);
  }

  lemma NodeUpdatedMirrors(y: System, n: nat, path: NodePath, d: NodeData)
    requires Mirrors(y) && n in y.connections
    ensures Mirrors(Step(y, On(n, NodeUpdated(path, d))))
  {
    hide Described, UpdateUser, Keys, Distinct, HeardAll;
    var c := y.connections[n];
    var e := NodeUpdated(path, d);
    var r := ConnectionStep(c, e);
    StepKeepsRegistered(c, e);
    if r.told == c.told {
      var user := if path.sessionId in c.users then c.users[path.sessionId] else NewUser(path.sessionId);
      SilentMeansUnchanged(user, path, d);
      assert r.users == c.users && NewsOf(c, e) == [];
      HeardNothing(y.rows, n);
      SameUsersMirror(y, n, r);
    } else {
      var user := if path.sessionId in c.users then c.users[path.sessionId] else NewUser(path.sessionId);
      SilentMeansUnchanged(user, path, d);
      var b := UserUpdated(Described(user, path, d).0, path.sessionId !in c.users);
      assert r.told == c.told + [b];
      assert NewsOf(c, e) == [b];
      HeardOne(y.rows, n, b);
      UpdateMirrors(y, n, r, b.user);
    }
  }

  lemma HeardNothing(rows: seq<Row>, n: nat)
    ensures HeardAll(rows, n, []) == rows
  {
  }

  lemma NodeRemovedMirrors(y: System, n: nat, path: NodePath)
    requires Mirrors(y) && n in y.connections
    ensures Mirrors(Step(y, On(n, NodeRemoved(path))))
  {
    hide RemoveKey, Keys, Distinct, HeardAll, IsUserGone;
    var c := y.connections[n];
    var e := NodeRemoved(path);
    var r := ConnectionStep(c, e);
    StepKeepsRegistered(c, e);
    if r == c {
      assert NewsOf(c, e) == [];
      HeardNothing(y.rows, n);
      SameUsersMirror(y, n, r);
    } else {
      var b := UserLeft(c.users[path.sessionId]);
      assert NewsOf(c, e) == [b];
      HeardOne(y.rows, n, b);
      LeaveMirrors(y, n, r, path.sessionId);
    }
  }

  /** Dropping the link: a connection that was not disconnected says so and the table
      forgets its users; one that was has none. */
  lemma DropNews(c: Connection)
    requires Registered(c)
    ensures Drop(c).users == map[] && Drop(c).link.Disconnected? && Registered(Drop(c))
    ensures Drop(c).told == c.told + if c.link.Disconnected? then [] else [StateChanged(QueryProtocol.Disconnected)]
    ensures c.link.Disconnected? ==> c.users == map[]
  {
  }

  lemma DropEventMirrors(y: System, n: nat, e: Event)
    requires Mirrors(y) && n in y.connections && (e.LinkLost? || e.Quit? || e.Dialled?)
    ensures Mirrors(Step(y, On(n, e)))
  {
    hide Keys, Distinct, HeardAll, Without, Registered, InRegistry;
    var c := y.connections[n];
    var r := ConnectionStep(c, e);
    var gone := StateChanged(QueryProtocol.Disconnected);
    var dialling := StateChanged(QueryProtocol.Connecting);
    StepKeepsRegistered(c, e);
    DropNews(c);
    var calls := e.Dialled? && e.reachable;
    assert NewsOf(c, e) == (if c.link.Disconnected? then [] else [gone]) + (if calls then [dialling] else []);
    assert [] + [dialling] == [dialling] && [gone] + [dialling] == [gone, dialling] && [gone] + [] == [gone];
    HeardNothing(y.rows, n);
    HeardOne(y.rows, n, gone);
    HeardOne(y.rows, n, dialling);
    HeardTwo(y.rows, n, gone, dialling);
    if c.link.Disconnected? {
      SameUsersMirror(y, n, r);
    } else {
      DropMirrors(y, n, r);
    }
  }

  lemma StepMirrors(y: System, a: Action)
    requires Mirrors(y)
    ensures Mirrors(Step(y, a))
  {
    match a
    case Opened(n) => OpeningMirrors(y, n);
    case On(n, e) =>
      if n in y.connections {
        match e
        case NodeUpdated(path, d) => NodeUpdatedMirrors(y, n, path, d);
        case NodeRemoved(path) => NodeRemovedMirrors(y, n, path);
        case LinkUp => QuietEventMirrors(y, n, e);
        case SessionIdAssigned(_) => QuietEventMirrors(y, n, e);
        case _ => DropEventMirrors(y, n, e);
      }
  }

  lemma OpeningMirrors(y: System, n: nat)
    requires Mirrors(y)
    ensures Mirrors(Step(y, Opened(n)))
  {
    hide Keys, Distinct;
  }

  lemma QuietEventMirrors(y: System, n: nat, e: Event)
    requires Mirrors(y) && n in y.connections && (e.LinkUp? || e.SessionIdAssigned?)
    ensures Mirrors(Step(y, On(n, e)))
  {
    hide Keys, Distinct, HeardAll;
    var c := y.connections[n];
    StepKeepsRegistered(c, e);
    HeardNothing(y.rows, n);
    HeardOne(y.rows, n, StateChanged(QueryProtocol.Connected));
    assert NewsOf(c, e) == [] || NewsOf(c, e) == [StateChanged(QueryProtocol.Connected)];
    SameUsersMirror(y, n, ConnectionStep(c, e));
  }

  ghost function After(actions: seq<Action>): (y: System)
    ensures Mirrors(y)
  {
    if actions == [] then System(map[], [])
    else
      var last := |actions| - 1;
      StepMirrors(After(actions[..last]), actions[last]);
      Step(After(actions[..last]), actions[last])
  }

  /** _FindRow, and what the row it gives holds. */
  ghost predicate Finds(rows: seq<Row>, e: Row) {
    && KeyOf(e) in LastRows(Keys(KeyOf, rows))
    && LastRows(Keys(KeyOf, rows))[KeyOf(e)] < |rows|
    && rows[LastRows(Keys(KeyOf, rows))[KeyOf(e)]] == e
  }

  lemma LookupFinds(rows: seq<Row>, e: Row)
    requires Distinct(Keys(KeyOf, rows)) && e in rows
    ensures Finds(rows, e)
  {
    hide KeyOf, Keys, LastRows, Distinct;
    IndexFindsEveryRow(Keys(KeyOf, rows));
    var i :| 0 <= i < |rows| && rows[i] == e;
    assert Keys(KeyOf, rows)[i] == KeyOf(e);
  }

  /** The user list, after every event of every run on any number of connections: the rows
      are exactly the records of the registries, none twice; looking a user up leads to
      their current record; and a disconnected connection has no users. */
  lemma UserListMirrorsRegistries(actions: seq<Action>)
    ensures var y := After(actions);
      && (forall e :: e in y.rows <==> InRegistry(y.connections, e))
      && (forall i, j | 0 <= i < j < |y.rows| :: y.rows[i] != y.rows[j])
      && (forall n, id | n in y.connections && id in y.connections[n].users ::
            Finds(y.rows, Row(n, y.connections[n].users[id])))
      && (forall n | n in y.connections && y.connections[n].link.Disconnected? :: y.connections[n].users == map[])
  {
    var y := After(actions);
    hide After, KeyOf, Keys, Finds;
    forall i, j | 0 <= i < j < |y.rows| ensures y.rows[i] != y.rows[j] {
      assert Keys(KeyOf, y.rows)[i] != Keys(KeyOf, y.rows)[j];
    }
    forall n, id | n in y.connections && id in y.connections[n].users
      ensures Finds(y.rows, Row(n, y.connections[n].users[id]))
    {
      assert Registered(y.connections[n]) && InRegistry(y.connections, Row(n, y.connections[n].users[id]));
      LookupFinds(y.rows, Row(n, y.connections[n].users[id]));
    }
  }

  // ----- What a listener hears about one session -----

  /** The users a listener knows of, from what it has been told. */
  function Known(told: seq<Callback>): set<SessionId> {
    if told == [] then {}
    else
      var before := Known(told[..|told| - 1]);
      match told[|told| - 1]
      case UserUpdated(user, _) => before + {user.sessionId}
      case UserLeft(user) => before - {user.sessionId}
      case StateChanged(link) => if link.Disconnected? then {} else before
  }

  /** First news of a session is marked new, later news is not, and only a known session
      can leave; a disconnect forgets all of them. */
  predicate MakesSense(told: seq<Callback>) {
    told == [] ||
      var before := Known(told[..|told| - 1]);
      && MakesSense(told[..|told| - 1])
      && match told[|told| - 1]
         case UserUpdated(user, isNew) => isNew <==> user.sessionId !in before
         case UserLeft(user) => user.sessionId in before
         case StateChanged(_) => true
  }

  ghost predicate InStep(c: Connection) { MakesSense(c.told) && Known(c.told) == c.users.Keys }

  lemma SetStateInStep(c: Connection, d: Connection, link: Link)
    requires InStep(c) && d.told == c.told && d.link == c.link
    requires if link.Disconnected? && c.link != link then d.users == map[] else d.users == c.users
    ensures InStep(SetState(d, link))
  {
  }

  lemma ToldUpdate(c: Connection, user: UserRecord, isNew: bool)
    requires InStep(c) && (isNew <==> user.sessionId !in c.users)
    ensures MakesSense(c.told + [UserUpdated(user, isNew)])
    ensures Known(c.told + [UserUpdated(user, isNew)]) == c.users.Keys + {user.sessionId}
  {
  }

  lemma ToldLeaving(c: Connection, user: UserRecord)
    requires InStep(c) && user.sessionId in c.users
    ensures MakesSense(c.told + [UserLeft(user)])
    ensures Known(c.told + [UserLeft(user)]) == c.users.Keys - {user.sessionId}
  {
  }

  lemma UpdateKeepsInStep(c: Connection, path: NodePath, d: NodeData)
    requires Registered(c) && InStep(c)
    ensures InStep(HandleNodeUpdated(c, path, d))
  {
    hide Described, Known, MakesSense;
    var isNew := path.sessionId !in c.users;
    var user := if isNew then NewUser(path.sessionId) else c.users[path.sessionId];
    SilentMeansUnchanged(user, path, d);
    ToldUpdate(c, Described(user, path, d).0, isNew);
  }

  lemma RemovalKeepsInStep(c: Connection, path: NodePath)
    requires Registered(c) && InStep(c)
    ensures InStep(HandleNodeRemoved(c, path))
  {
    hide Known, MakesSense, IsUserGone;
    if path.sessionId in c.users {
      ToldLeaving(c, c.users[path.sessionId]);
    }
  }

  lemma DropKeepsInStep(c: Connection)
    requires Registered(c) && InStep(c)
    ensures InStep(Drop(c)) && InStep(SetState(Drop(c), QueryProtocol.Connecting))
  {
    hide Known, MakesSense;
    SetStateInStep(c, c.(users := map[], localSessionId := ""), QueryProtocol.Disconnected);
    SetStateInStep(Drop(c), Drop(c), QueryProtocol.Connecting);
  }

  lemma StepKeepsInStep(c: Connection, e: Event)
    requires Registered(c) && InStep(c)
    ensures InStep(ConnectionStep(c, e))
  {
    hide Known, MakesSense, HandleNodeUpdated, HandleNodeRemoved, Drop, SetState, Registered;
    match e
    case NodeUpdated(path, d) => UpdateKeepsInStep(c, path, d);
    case NodeRemoved(path) => RemovalKeepsInStep(c, path);
    case LinkUp => SetStateInStep(c, c, QueryProtocol.Connected);
    case SessionIdAssigned(_) =>
    case _ => DropKeepsInStep(c);
  }

  /** On every connection of every run, what the listener is told about a session is: new,
      then updates, then left, over and over, with a disconnect starting afresh; and from
      it the listener always knows exactly who is there. */
  lemma {:induction false} CallbacksMakeSense(actions: seq<Action>, n: nat)
    requires n in After(actions).connections
    ensures var c := After(actions).connections[n];
      MakesSense(c.told) && Known(c.told) == c.users.Keys
  {
    if actions != [] {
      var last := |actions| - 1;
      var y := After(actions[..last]);
      AfterMoves(actions, n);
      hide After, MakesSense, Known, ConnectionStep;
      if n in y.connections {
        CallbacksMakeSense(actions[..last], n);
        if actions[last].On? {
          StepKeepsInStep(y.connections[n], actions[last].event);
        }
      } else {
        NothingTold();
      }
    }
  }

  /** One more action moves the connection it is about, or opens a new one. */
  lemma AfterMoves(actions: seq<Action>, n: nat)
    requires actions != []
    ensures var before, a := After(actions[..|actions| - 1]).connections, actions[|actions| - 1];
      && (n in After(actions).connections <==> n in before || a == Opened(n))
      && (n in After(actions).connections ==>
            After(actions).connections[n] ==
              if n !in before then NEW_CONNECTION
              else if a.On? && a.connection == n then ConnectionStep(before[n], a.event)
              else before[n])
  {
    hide ConnectionStep, Mirrors, HeardAll;
  }

  lemma NothingTold()
    ensures MakesSense([]) && Known([]) == {}
  {
  }

  // ----- Our own session -----

  /** What can happen on a connection while its session lasts. */
  predicate WithinSession(e: Event, id: SessionId) {
    e.NodeUpdated? || e.NodeRemoved? || e.LinkUp? || e == SessionIdAssigned(id)
  }

  predicate TakesOff(e: Event, id: SessionId) {
    e.NodeRemoved? && IsUserGone(e.path) && e.path.sessionId == id
  }

  predicate TakenOff(more: seq<Action>, n: nat, id: SessionId) {
    exists i | 0 <= i < |more| :: more[i].On? && more[i].connection == n && TakesOff(more[i].event, id)
  }

  lemma OwnSessionStep(c: Connection, e: Event, id: SessionId)
    requires c.link.Connected? && c.localSessionId == id != "" && WithinSession(e, id)
    ensures var r := ConnectionStep(c, e);
      && r.link.Connected? && r.localSessionId == id
      && (id in r.users <==> id in c.users && !TakesOff(e, id))
      && (id in r.users ==> r.users[id] == c.users[id])
  {
    hide Described;
  }

  lemma TakenOffSnoc(more: seq<Action>, n: nat, id: SessionId)
    requires more != []
    ensures var last := |more| - 1;
      TakenOff(more, n, id) <==>
        TakenOff(more[..last], n, id)
        || (more[last].On? && more[last].connection == n && TakesOff(more[last].event, id))
  {
    var last := |more| - 1;
    assert forall i | 0 <= i < last :: more[..last][i] == more[i];
  }

  /** Our own session in our own user list, in every run and whatever other connections do
      meanwhile: from the moment its ID is known until the session ends, it is listed if and
      only if it was listed at that moment and no node has taken it off since; and its
      record stays as it was. */
  lemma {:induction false} OwnSessionListed(actions: seq<Action>, n: nat, id: SessionId, more: seq<Action>)
    requires n in After(actions).connections && After(actions).connections[n].link.Connected? && id != ""
    requires forall a | a in more && a.On? && a.connection == n :: WithinSession(a.event, id)
    ensures var known := actions + [On(n, SessionIdAssigned(id))];
      && n in After(known + more).connections
      && var c, r := After(actions).connections[n], After(known + more).connections[n];
      && r.link.Connected? && r.localSessionId == id
      && (id in r.users <==> id in c.users && !TakenOff(more, n, id))
      && (id in r.users ==> r.users[id] == c.users[id])
  {
    hide After, ConnectionStep, WithinSession, TakesOff, TakenOff;
    var known := actions + [On(n, SessionIdAssigned(id))];
    if more == [] {
      assert known + more == known && known[..|known| - 1] == actions;
      AfterMoves(known, n);
      AssigningNames(After(actions).connections[n], id);
      assert !TakenOff([], n, id) by { NothingTakenOff(n, id); }
    } else {
      var last := |more| - 1;
      assert forall a | a in more[..last] :: a in more;
      OwnSessionListed(actions, n, id, more[..last]);
      assert (known + more)[..|known + more| - 1] == known + more[..last];
      AfterMoves(known + more, n);
      TakenOffSnoc(more, n, id);
      if more[last].On? && more[last].connection == n {
        assert more[last] in more;
        OwnSessionStep(After(known + more[..last]).connections[n], more[last].event, id);
      }
    }
  }

  lemma NothingTakenOff(n: nat, id: SessionId)
    ensures !TakenOff([], n, id)
  {
  }

  lemma AssigningNames(c: Connection, id: SessionId)
    requires c.link.Connected?
    ensures ConnectionStep(c, SessionIdAssigned(id)) == c.(localSessionId := id)
  {
  }

  /** And it can be listed: a node of our own that arrives before the answer to the
      parameter request puts us in our own user list. */
  lemma OwnNodeBeforeOwnId(id: SessionId, d: NodeData)
    requires id != ""
    ensures exists actions ::
      && 0 in After(actions).connections
      && After(actions).connections[0].localSessionId == id
      && id in After(actions).connections[0].users
      && Row(0, After(actions).connections[0].users[id]) in After(actions).rows
  {
    hide After, ConnectionStep;
    var path := NodePath(USER_NAME_DEPTH, "", id, "name");
    var actions := [Opened(0)];
    OpensFirst();
    actions := Then(actions, Dialled(true));
    actions := Then(actions, LinkUp);
    actions := Then(actions, NodeUpdated(path, d));
    actions := Then(actions, SessionIdAssigned(id));
    EarlyNode(path, d, id);
    RecordIsShown(actions, 0, id);
  }

  lemma OpensFirst()
    ensures 0 in After([Opened(0)]).connections && After([Opened(0)]).connections[0] == NEW_CONNECTION
  {
    assert [Opened(0)][..0] == [];
    AfterMoves([Opened(0)], 0);
  }

  lemma Then(actions: seq<Action>, e: Event) returns (next: seq<Action>)
    requires 0 in After(actions).connections
    ensures 0 in After(next).connections
    ensures After(next).connections[0] == ConnectionStep(After(actions).connections[0], e)
  {
    next := actions + [On(0, e)];
    assert next[..|next| - 1] == actions;
    AfterMoves(next, 0);
  }

  lemma EarlyNode(path: NodePath, d: NodeData, id: SessionId)
    requires path == NodePath(USER_NAME_DEPTH, "", id, "name") && id != ""
    ensures var up := ConnectionStep(ConnectionStep(NEW_CONNECTION, Dialled(true)), LinkUp);
      var r := ConnectionStep(ConnectionStep(up, NodeUpdated(path, d)), SessionIdAssigned(id));
      id in r.users && r.localSessionId == id
  {
  }

  lemma RecordIsShown(actions: seq<Action>, n: nat, id: SessionId)
    requires n in After(actions).connections && id in After(actions).connections[n].users
    ensures Row(n, After(actions).connections[n].users[id]) in After(actions).rows
  {
    assert Registered(After(actions).connections[n]);
    assert InRegistry(After(actions).connections, Row(n, After(actions).connections[n].users[id]));
  }

  // ----- The objects, step by step -----

  class UserListModel {
    var rows: seq<Row>
    var rowsByKey: map<string, nat>

    ghost predicate Valid()
      reads this
    {
      rowsByKey == LastRows(Keys(KeyOf, rows))
    }

    constructor ()
      ensures Valid() && rows == []
    {
      rows, rowsByKey := [], map[];
    }

    method Update(row: Row)
      requires Valid()
      modifies this
      ensures Valid() && rows == UpdateUser(old(rows), row)
    {
      hide Keys, LastRows, KeyOf;
      IndexAgrees(Keys(KeyOf, rows));
      ghost var before := rows;
      var key := KeyOf(row);
      if key in rowsByKey {
        assert Keys(KeyOf, rows)[rowsByKey[key]] == KeyOf(rows[rowsByKey[key]]);
        rows := rows[rowsByKey[key] := row];
        SameKeys(KeyOf, before, rows);
      } else {
        KeysSnoc(KeyOf, rows, row);
        IndexSnoc(Keys(KeyOf, rows), key);
        rowsByKey := rowsByKey[key := |rows|];
        rows := rows + [row];
      }
    }

    method Remove(connection: nat, sessionId: SessionId)
      requires Valid()
      modifies this
      ensures Valid() && rows == RemoveKey(KeyOf, old(rows), UserKey(connection, sessionId))
    {
      var key := UserKey(connection, sessionId);
      if key !in rowsByKey {
        return;
      }
      var row := rowsByKey[key];
      IndexAgrees(Keys(KeyOf, rows));
      rows := rows[..row] + rows[row + 1..];
      RebuildIndex();
    }

    method KeptRows(connection: nat) returns (kept: seq<Row>)
      ensures kept == Without(rows, OfConnection(connection))
    {
      kept := [];
      for i := 0 to |rows|
        invariant kept == Without(rows[..i], OfConnection(connection))
      {
        WithoutSnoc(rows, OfConnection(connection), i);
        if rows[i].connection != connection {
          kept := kept + [rows[i]];
        }
      }
      assert rows[..|rows|] == rows;
    }

    method RemoveUsersForConnection(connection: nat)
      requires Valid()
      modifies this
      ensures Valid() && rows == Without(old(rows), OfConnection(connection))
    {
      var kept := KeptRows(connection);
      if |kept| == |rows| {
        WithoutAll(rows, OfConnection(connection));
        return;
      }
      rows := kept;
      RebuildIndex();
    }

    method RebuildIndex()
      modifies this`rowsByKey
      ensures Valid()
    {
      hide Keys, LastRows, KeyOf;
      rowsByKey := map[];
      EmptyIndex();
      assert Keys(KeyOf, rows)[..0] == [];
      for row := 0 to |rows|
        invariant rowsByKey == LastRows(Keys(KeyOf, rows)[..row])
      {
        IndexSnoc(Keys(KeyOf, rows)[..row], KeyOf(rows[row]));
        assert Keys(KeyOf, rows)[..row + 1] == Keys(KeyOf, rows)[..row] + [KeyOf(rows[row])];
        rowsByKey := rowsByKey[KeyOf(rows[row]) := row];
      }
      assert Keys(KeyOf, rows)[..|rows|] == Keys(KeyOf, rows);
    }
  }

  /** One connection with the table model as its listener. */
  class ServerConnection {
    const number: nat
    const model: UserListModel
    var connectionState: Link
    var users: map<SessionId, UserRecord>
    var localSessionId: SessionId
    ghost var told: seq<Callback>

    ghost function State(): Connection
      reads this
    {
      Connection(connectionState, users, localSessionId, told)
    }

    constructor (number: nat, model: UserListModel)
      ensures State() == NEW_CONNECTION && this.number == number && this.model == model
    {
      this.number, this.model := number, model;
      connectionState, users, localSessionId, told := QueryProtocol.Disconnected, map[], "", [];
    }

    /** One call of the listener. */
    method Notify(b: Callback)
      requires model.Valid()
      modifies this`told, model
      ensures told == old(told) + [b]
      ensures model.Valid() && model.rows == Heard(old(model.rows), number, b)
    {
      told := told + [b];
      match b
      case UserUpdated(user, _) => model.Update(Row(number, user));
      case UserLeft(user) => model.Remove(number, user.sessionId);
      case StateChanged(link) =>
        if link.Disconnected? {
          model.RemoveUsersForConnection(number);
        }
    }

    ghost predicate Follows(c: Connection, before: seq<Row>, r: Connection)
      reads this, model
    {
      && State() == r && model.Valid()
      && |c.told| <= |r.told| && r.told[..|c.told|] == c.told
      && model.rows == HeardAll(before, number, r.told[|c.told|..])
    }

    method ChangeState(link: Link)
      requires model.Valid()
      modifies this, model
      ensures Follows(old(State()), old(model.rows), SetState(old(State()), link))
    {
      hide HeardAll, Heard, Keys, LastRows, Without;
      HeardNothing(model.rows, number);
      HeardOne(model.rows, number, StateChanged(link));
      ghost var c := State();
      assert c.told[|c.told|..] == [];
      if link == connectionState {
        return;
      }
      connectionState := link;
      Notify(StateChanged(link));
    }

    /** SessionDisconnected, SessionDetached and DisconnectFromServer, as far as users go. */
    method LoseSession()
      requires model.Valid()
      modifies this, model
      ensures Follows(old(State()), old(model.rows), Drop(old(State())))
    {
      users := map[];
      localSessionId := "";
      ChangeState(QueryProtocol.Disconnected);
    }

    method HandleUpdated(path: NodePath, data: NodeData)
      requires model.Valid()
      modifies this, model
      ensures Follows(old(State()), old(model.rows), HandleNodeUpdated(old(State()), path, data))
    {
      hide HandleUserNode, HeardAll, Keys, LastRows;
      HeardNothing(model.rows, number);
      ghost var c := State();
      assert c.told[|c.told|..] == [];
      if path.depth < USER_NAME_DEPTH || path.sessionId == "" || path.depth == FILE_INFO_DEPTH {
        return;
      }
      if path.sessionId == localSessionId {
        return;
      }
      HandleUser(path, data);
    }

    method HandleUser(path: NodePath, data: NodeData)
      requires model.Valid()
      modifies this, model
      ensures Follows(old(State()), old(model.rows), HandleUserNode(old(State()), path, data))
    {
      hide Described, Heard, HeardAll, Keys, LastRows;
      ghost var c := State();
      var isNewUser := path.sessionId !in users;
      if isNewUser {
        users := users[path.sessionId := NewUser(path.sessionId)];
      }
      var (user, didChange) := Described(users[path.sessionId], path, data);
      users := users[path.sessionId := user];
      assert users == c.users[path.sessionId := user];
      if didChange || isNewUser {
        HeardOne(model.rows, number, UserUpdated(user, isNewUser));
        Notify(UserUpdated(user, isNewUser));
      } else {
        HeardNothing(model.rows, number);
        assert c.told[|c.told|..] == [];
      }
    }

    method HandleRemoved(path: NodePath)
      requires model.Valid()
      modifies this, model
      ensures Follows(old(State()), old(model.rows), HandleNodeRemoved(old(State()), path))
    {
      HeardNothing(model.rows, number);
      ghost var c := State();
      assert c.told[|c.told|..] == [];
      var isUserGone := false;
      if path.depth == SESSION_ID_DEPTH {
        isUserGone := true;
      } else if path.depth == USER_NAME_DEPTH {
        isUserGone := "name" <= path.nodeName;
      }
      if !isUserGone || path.sessionId == "" || path.sessionId !in users {
        return;
      }
      var departed := users[path.sessionId];
      users := users - {path.sessionId};
      HeardOne(model.rows, number, UserLeft(departed));
      Notify(UserLeft(departed));
    }
  }
}
