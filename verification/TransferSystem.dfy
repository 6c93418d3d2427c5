// One upload server and any number of downloads, joined by FIFO channels, in every
// interleaving of joining, accepting, delivering, draining, hanging up and leaving.
// The share table and the shared files are fixed, and the announced sizes are right.

module TransferSystem {

  import opened Prelude
  import opened ChunkIntegrity
  import opened TransferProtocol
  import opened UploadServer
  import opened UploadProgress
  import opened TransferScript
  import opened DownloadSession
  import DiskSafety
  import opened TransferReceiver
  import Admission = UploadAdmission

  /** One download and its side of the channel: what it has sent that has not arrived yet,
      and how many of the server's messages it has received. */
  datatype Client = Client(
    config: Config,
    before: map<string, seq<Byte>>,
    download: Download,
    isLinked: bool,
    toServer: seq<Message>,
    received: nat)

  datatype System = System(run: Admission.Run, share: Disk, clients: map<SessionId, Client>)

  datatype Action =
    | Join(id: SessionId, config: Config, disk: map<string, seq<Byte>>)
    | Accept(id: SessionId)
    | LinkUp(id: SessionId)
    | ToServer(id: SessionId)
    | Drain(id: SessionId)
    | ToClient(id: SessionId, env: Environment)
    | HangUp(id: SessionId)
    | Cancel(id: SessionId)
    | Leave(id: SessionId)

  function LogOf(s: Server, id: SessionId): seq<Message> {
    if id in s.sent then s.sent[id] else []
  }

  function WithClient(y: System, id: SessionId, c: Client): System {
    y.(clients := y.clients[id := c])
  }

  ghost function ServerStep(y: System, e: Admission.Event): System
    requires Valid(y.run.server)
  {
    y.(run := Admission.Step(y.run, e))
  }

  function ClientStep(c: Client, e: DiskSafety.Event): Client
    requires HandleIsBacked(c.download)
  {
    c.(download := DiskSafety.Step(c.config, c.download, e))
  }

  ghost function Deliver(y: System, id: SessionId, c: Client): System
    requires Valid(y.run.server) && id in y.clients && y.clients[id] == c && c.toServer != []
  {
    var left := WithClient(y, id, c.(toServer := c.toServer[1..]));
    match c.toServer[0]
    case FileList(names, mungeMode) => ServerStep(left, Admission.Listed(id, names, mungeMode, y.share))
    case _ => left
  }

  ghost function Step(y: System, a: Action): System
    requires Valid(y.run.server) && forall id | id in y.clients :: HandleIsBacked(y.clients[id].download)
  {
    if a.Join? then
      if a.id in y.clients then y
      else WithClient(y, a.id, Client(a.config, a.disk, Start(a.config, Fresh(a.disk), true), false, [], 0))
    else if a.id !in y.clients then y
    else
      var id, c, log := a.id, y.clients[a.id], LogOf(y.run.server, a.id);
      match a
      case Accept(_) => ServerStep(y, Admission.Accepted(id))
      case LinkUp(_) =>
        if c.isLinked || !c.download.state.Connecting? then y
        else WithClient(y, id, ClientStep(c, DiskSafety.LinkUp).(isLinked := true, toServer := Greeting(c.config)))
      case ToServer(_) => if id in y.run.lists && c.toServer != [] then Deliver(y, id, c) else y
      case Drain(_) => ServerStep(y, Admission.Drained(id, y.share))
      case ToClient(_, env) =>
        if IsConnected(c.download) && c.received < |log|
        then WithClient(y, id, ClientStep(c, DiskSafety.Arrived(log[c.received], env)).(received := c.received + 1))
        else y
      case HangUp(_) => WithClient(y, id, ClientStep(c, DiskSafety.HungUp))
      case Cancel(_) => WithClient(y, id, ClientStep(c, DiskSafety.Cancelled))
      case Leave(_) => ServerStep(y, Admission.Detached(id, y.share))
  }

  // ----- The invariant -----

  function Wanted(y: System, c: Client): seq<SharedFile> {
    Resolve(c.config.requested, y.run.server.shared)
  }

  function ScriptOf(y: System, c: Client): seq<Message> {
    Script(Wanted(y, c), y.share, MUNGE_MODE_XOR)
  }

  predicate HasAsked(c: Client) { c.isLinked && c.toServer == [] }

  ghost predicate ShareAgrees(shared: map<string, SharedFile>, share: Disk) {
    forall name | name in shared && shared[name].absolutePath in share ::
      shared[name].fileSize == |share[shared[name].absolutePath]|
  }

  /** The server's side of one session: its log follows the client's own script. */
  ghost predicate LogFollowsScript(y: System, id: SessionId, c: Client) {
    var s := y.run.server;
    && Body(LogOf(s, id)) <= ScriptOf(y, c)
    && (HasAsked(c) ==> id in y.run.lists)
    && (id in s.peers && HasAsked(c) ==>
          && s.peers[id].requestedFiles == Wanted(y, c)
          && s.peers[id].mungeMode == MUNGE_MODE_XOR)
    && (!HasAsked(c) ==>
          && LogOf(s, id) == [] && (id in s.peers ==> s.peers[id] == NEW_PEER)
          && (id in y.run.lists ==> y.run.lists[id] == 0))
  }

  /** The client's side: what it has asked for, what it has received, how far it is. */
  ghost predicate ClientFollowsScript(y: System, id: SessionId, c: Client) {
    var log := LogOf(y.run.server, id);
    && (c.toServer == [] || c.toServer == Greeting(c.config) || c.toServer == Greeting(c.config)[1..])
    && (!c.isLinked ==>
          c.toServer == [] && c.received == 0 && c.download.completed == [] && !c.download.isOpen)
    && (IsConnected(c.download) ==> c.isLinked)
    && DiskSafety.CleanDisk(c.before, c.download)
    && c.received <= |log|
    && |Body(log[..c.received])| <= |ScriptOf(y, c)|
    && Progress(c.download, ScriptOf(y, c)[|Body(log[..c.received])|..],
                Openable(Wanted(y, c), y.share), y.share, MUNGE_MODE_XOR)
  }

  ghost predicate ServerOk(run: Admission.Run, share: Disk, ids: set<SessionId>) {
    && Admission.Good(run) && Admission.OneListEach(run) && Tidy(run.server, share)
    && run.server.sent.Keys == run.lists.Keys && run.lists.Keys <= ids
    && ShareAgrees(run.server.shared, share)
  }

  ghost predicate Inv(y: System) {
    && ServerOk(y.run, y.share, y.clients.Keys)
    && (forall id | id in y.clients :: LogFollowsScript(y, id, y.clients[id]))
    && (forall id | id in y.clients :: ClientFollowsScript(y, id, y.clients[id]))
  }

  // ----- The server moves -----

  /** What a server step other than a file list does to the sessions. */
  ghost predicate Moves(s: Server, r: Server) {
    && r.shared == s.shared && r.sent.Keys == s.sent.Keys && r.peers.Keys <= s.peers.Keys
    && (forall id | id in s.sent :: s.sent[id] <= r.sent[id])
    && (forall id | id in s.sent && (id !in r.peers || s.peers[id] == NEW_PEER) :: r.sent[id] == s.sent[id])
    && (forall id | id in r.peers ::
          && r.peers[id].requestedFiles == s.peers[id].requestedFiles
          && r.peers[id].mungeMode == s.peers[id].mungeMode
          && (s.peers[id] == NEW_PEER ==> r.peers[id] == NEW_PEER))
  }

  lemma MoveKeepsLog(y: System, t: System, id: SessionId)
    requires id in y.clients && LogFollowsScript(y, id, y.clients[id])
    requires Moves(y.run.server, t.run.server) && Tidy(t.run.server, y.share)
    requires t.clients == y.clients && t.share == y.share && t.run.lists == y.run.lists
    ensures LogFollowsScript(t, id, t.clients[id])
  {
    var s, r := y.run.server, t.run.server;
    var c := y.clients[id];
    if id in r.peers && HasAsked(c) {
      assert r.peers[id] != NEW_PEER;
    } else if id in s.sent {
      assert r.sent[id] == s.sent[id];
    }
  }

  lemma MoveKeepsClient(y: System, t: System, id: SessionId)
    requires id in y.clients && ClientFollowsScript(y, id, y.clients[id])
    requires Moves(y.run.server, t.run.server)
    requires t.clients == y.clients && t.share == y.share
    ensures ClientFollowsScript(t, id, t.clients[id])
  {
    var c := y.clients[id];
    var log, more := LogOf(y.run.server, id), LogOf(t.run.server, id);
    assert log <= more;
    assert log[..c.received] == more[..c.received];
  }

  lemma MoveKeepsInv(y: System, t: System)
    requires Inv(y) && ServerOk(t.run, t.share, t.clients.Keys) && Moves(y.run.server, t.run.server)
    requires t.clients == y.clients && t.share == y.share && t.run.lists == y.run.lists
    ensures Inv(t)
  {
    forall id | id in t.clients
      ensures LogFollowsScript(t, id, t.clients[id]) && ClientFollowsScript(t, id, t.clients[id])
    {
      MoveKeepsLog(y, t, id);
      MoveKeepsClient(y, t, id);
    }
  }

  lemma DrainMoves(run: Admission.Run, share: Disk, ids: set<SessionId>, id: SessionId)
    requires ServerOk(run, share, ids)
    requires id in run.server.peers && run.server.peers[id] == NEW_PEER ==> run.lists[id] == 0
    ensures var t := Admission.Step(run, Admission.Drained(id, share));
      ServerOk(t, share, ids) && Moves(run.server, t.server) && t.lists == run.lists
  {
    var s := run.server;
    if id in s.drains && s.drains[id] > 0 {
      assert Admission.Tokens(s, id) <= run.lists[id] <= 1;
      Admission.StepKeepsGood(run, Admission.Drained(id, share));
      DrainTidy(s, id, share);
    }
  }

  lemma LeaveMoves(run: Admission.Run, share: Disk, ids: set<SessionId>, id: SessionId)
    requires ServerOk(run, share, ids)
    ensures var t := Admission.Step(run, Admission.Detached(id, share));
      ServerOk(t, share, ids) && Moves(run.server, t.server) && t.lists == run.lists
  {
    Admission.StepKeepsGood(run, Admission.Detached(id, share));
    DetachTidy(run.server, id, share);
    DetachMoves(run.server, id, share);
  }

  lemma DetachMoves(s: Server, id: SessionId, share: Disk)
    requires Tidy(s, share)
    ensures Moves(s, SessionDetached(s, id, share))
  {
    DetachTidy(s, id, share);
  }

  lemma AcceptServer(run: Admission.Run, share: Disk, ids: set<SessionId>, id: SessionId)
    requires ServerOk(run, share, ids) && id in ids && id !in run.lists
    ensures ServerOk(Admission.Step(run, Admission.Accepted(id)), share, ids)
  {
    hide Admission.Good, OnScript, Body;
    Admission.StepKeepsGood(run, Admission.Accepted(id));
  }

  lemma NewPeerHasNotAsked(y: System, id: SessionId)
    requires id in y.clients && LogFollowsScript(y, id, y.clients[id])
    requires id in y.run.server.peers && id in y.run.lists && y.run.server.peers[id] == NEW_PEER
    ensures y.run.lists[id] == 0
  {
  }

  lemma ListedIdsKnown(run: Admission.Run, share: Disk, ids: set<SessionId>)
    requires ServerOk(run, share, ids)
    ensures run.server.peers.Keys <= run.lists.Keys && Valid(run.server)
  {
  }

  lemma DrainKeepsInv(y: System, id: SessionId)
    requires Inv(y) && id in y.clients
    ensures Inv(ServerStep(y, Admission.Drained(id, y.share)))
  {
    ListedIdsKnown(y.run, y.share, y.clients.Keys);
    if id in y.run.server.peers && y.run.server.peers[id] == NEW_PEER {
      NewPeerHasNotAsked(y, id);
    }
    DrainMoves(y.run, y.share, y.clients.Keys, id);
    MoveKeepsInv(y, ServerStep(y, Admission.Drained(id, y.share)));
  }

  lemma LeaveKeepsInv(y: System, id: SessionId)
    requires Inv(y) && id in y.clients
    ensures Inv(ServerStep(y, Admission.Detached(id, y.share)))
  {
    LeaveMoves(y.run, y.share, y.clients.Keys, id);
    MoveKeepsInv(y, ServerStep(y, Admission.Detached(id, y.share)));
  }

  lemma AcceptKeepsSession(y: System, id: SessionId, x: SessionId)
    requires x in y.clients && Valid(y.run.server) && id !in y.run.lists
    requires y.run.server.sent.Keys == y.run.lists.Keys
    requires LogFollowsScript(y, x, y.clients[x]) && ClientFollowsScript(y, x, y.clients[x])
    ensures var t := ServerStep(y, Admission.Accepted(id));
      LogFollowsScript(t, x, t.clients[x]) && ClientFollowsScript(t, x, t.clients[x])
  {
    assert LogOf(ServerStep(y, Admission.Accepted(id)).run.server, x) == LogOf(y.run.server, x);
  }

  // ----- Messages to the server -----

  lemma GreetingShape(config: Config)
    ensures Greeting(config)[0] == PeerId
    ensures Greeting(config)[1..] == [FileList(config.requested, Some(MUNGE_MODE_XOR))]
    ensures Greeting(config)[1..][1..] == []
  {
  }

  lemma AcceptKeepsInv(y: System, id: SessionId)
    requires Inv(y) && id in y.clients
    ensures Inv(ServerStep(y, Admission.Accepted(id)))
  {
    if id !in y.run.lists {
      AcceptServer(y.run, y.share, y.clients.Keys, id);
      ListedIdsKnown(y.run, y.share, y.clients.Keys);
      var t := ServerStep(y, Admission.Accepted(id));
      forall x | x in t.clients
        ensures LogFollowsScript(t, x, t.clients[x]) && ClientFollowsScript(t, x, t.clients[x])
      {
        AcceptKeepsSession(y, id, x);
      }
    }
  }

  /** Nothing about a session depends on another client's record. */
  lemma OtherKept(y: System, t: System, x: SessionId)
    requires x in y.clients && x in t.clients && t.clients[x] == y.clients[x]
    requires t.run == y.run && t.share == y.share
    requires LogFollowsScript(y, x, y.clients[x]) && ClientFollowsScript(y, x, y.clients[x])
    ensures LogFollowsScript(t, x, t.clients[x]) && ClientFollowsScript(t, x, t.clients[x])
  {
  }

  lemma OthersKept(y: System, id: SessionId, c: Client)
    requires Inv(y) && id in y.clients
    requires var t := WithClient(y, id, c);
      LogFollowsScript(t, id, c) && ClientFollowsScript(t, id, c)
    ensures Inv(WithClient(y, id, c))
  {
    hide ServerOk, LogFollowsScript, ClientFollowsScript;
    var t := WithClient(y, id, c);
    assert t.clients.Keys == y.clients.Keys;
    forall x | x in t.clients
      ensures LogFollowsScript(t, x, t.clients[x]) && ClientFollowsScript(t, x, t.clients[x])
    {
      if x != id {
        OtherKept(y, t, x);
      }
    }
  }

  lemma LinkUpKeepsInv(y: System, id: SessionId)
    requires Inv(y) && id in y.clients && !y.clients[id].isLinked && y.clients[id].download.state.Connecting?
    ensures var c := y.clients[id];
      Inv(WithClient(y, id, ClientStep(c, DiskSafety.LinkUp).(isLinked := true, toServer := Greeting(c.config))))
  {
    var c := y.clients[id];
    var linked := ClientStep(c, DiskSafety.LinkUp).(isLinked := true, toServer := Greeting(c.config));
    LinkUpKeepsSession(y, id, c, linked);
    OthersKept(y, id, linked);
  }

  lemma LinkUpKeepsSession(y: System, id: SessionId, c: Client, linked: Client)
    requires id in y.clients && y.clients[id] == c && LogFollowsScript(y, id, c) && ClientFollowsScript(y, id, c)
    requires !c.isLinked && c.download.state.Connecting?
    requires linked == ClientStep(c, DiskSafety.LinkUp).(isLinked := true, toServer := Greeting(c.config))
    ensures var t := WithClient(y, id, linked);
      LogFollowsScript(t, id, linked) && ClientFollowsScript(t, id, linked)
  {
    var all := Openable(Wanted(y, c), y.share);
    assert all[0..] == all;
    assert AtBoundary(linked.download, all, Wanted(y, c), y.share);
    assert ScriptOf(y, c)[0..] == ScriptOf(y, c);
  }

  // ----- The downloads move -----

  /** A hang-up or a cancellation ends a session without adding to what is complete. */
  lemma EndKeepsSession(y: System, id: SessionId, c: Client, e: DiskSafety.Event)
    requires id in y.clients && y.clients[id] == c && LogFollowsScript(y, id, c) && ClientFollowsScript(y, id, c)
    requires e.HungUp? || e.Cancelled?
    ensures var t := WithClient(y, id, ClientStep(c, e));
      LogFollowsScript(t, id, ClientStep(c, e)) && ClientFollowsScript(t, id, ClientStep(c, e))
  {
    var r := ClientStep(c, e);
    DiskSafety.StepKeepsClean(c.config, c.before, c.download, e);
    assert !IsConnected(r.download) || r == c;
    assert r.download.completed == c.download.completed;
    MatchesKept(c.download, r.download, Openable(Wanted(y, c), y.share), y.share);
  }

  lemma EndKeepsInv(y: System, id: SessionId, e: DiskSafety.Event)
    requires Inv(y) && id in y.clients && (e.HungUp? || e.Cancelled?)
    ensures HandleIsBacked(y.clients[id].download)
    ensures Inv(WithClient(y, id, ClientStep(y.clients[id], e)))
  {
    assert ClientFollowsScript(y, id, y.clients[id]);
    EndKeepsSession(y, id, y.clients[id], e);
    OthersKept(y, id, ClientStep(y.clients[id], e));
  }

  /** One more message of the log: the waiting notice, or the next one of the script. */
  lemma NextOfLog(log: seq<Message>, script: seq<Message>, k: nat)
    requires Body(log) <= script && k < |log|
    ensures var n := |Body(log[..k])|;
      && n <= |script|
      && ((k == 0 && log[0].NotifyQueued? && |Body(log[..k + 1])| == n)
          || (n < |script| && log[k] == script[n] && |Body(log[..k + 1])| == n + 1))
  {
    if log[0].NotifyQueued? {
      assert Body(log) == log[1..];
      if k > 0 {
        assert Body(log[..k]) == log[1..k] && Body(log[..k + 1]) == log[1..k + 1];
        assert log[k] == Body(log)[k - 1];
      }
    } else {
      assert Body(log[..k]) == log[..k] && Body(log[..k + 1]) == log[..k + 1];
    }
  }

  lemma NoticeKeepsProgress(config: Config, d: Download, remaining: seq<Message>, all: seq<SharedFile>, share: Disk,
                            env: Environment)
    requires HandleIsBacked(d) && IsConnected(d) && Progress(d, remaining, all, share, MUNGE_MODE_XOR)
    ensures Progress(MessageReceived(config, d, NotifyQueued, env), remaining, all, share, MUNGE_MODE_XOR)
  {
    hide Script, ChunkScript, Openable;
    var r := MessageReceived(config, d, NotifyQueued, env);
    assert r == d.(state := QueuedRemotely);
    if rest :| AtBoundary(d, all, rest, share) && remaining == Script(rest, share, MUNGE_MODE_XOR) {
      assert AtBoundary(r, all, rest, share);
    } else {
      var rest :| InFile(d, all, rest, share)
        && remaining == ChunkScript(FileBeingRead(d, all, share), MUNGE_MODE_XOR) + Script(rest, share, MUNGE_MODE_XOR);
      assert InFile(r, all, rest, share) && FileBeingRead(r, all, share) == FileBeingRead(d, all, share);
    }
  }

  lemma {:induction false} OpenableSizesAgree(names: seq<string>, shared: map<string, SharedFile>, share: Disk)
    requires ShareAgrees(shared, share)
    ensures SizesAgree(Openable(Resolve(names, shared), share), share)
  {
    forall f | f in Openable(Resolve(names, shared), share) ensures f.fileSize == |share[f.absolutePath]| {
      var name := ResolvedName(names, shared, f);
    }
  }

  lemma {:induction false} ResolvedName(names: seq<string>, shared: map<string, SharedFile>, f: SharedFile)
    returns (name: string)
    requires f in Resolve(names, shared)
    ensures name in shared && shared[name] == f
  {
    var last := |names| - 1;
    if names[last] in shared && shared[names[last]] == f {
      name := names[last];
    } else {
      name := ResolvedName(names[..last], shared, f);
    }
  }

  lemma ArrivalKeepsProgress(config: Config, before: map<string, seq<Byte>>, d: Download, log: seq<Message>, k: nat,
                             script: seq<Message>, all: seq<SharedFile>, share: Disk, env: Environment)
    requires DiskSafety.CleanDisk(before, d) && IsConnected(d) && SizesAgree(all, share)
    requires Body(log) <= script && k < |log| && |Body(log[..k])| <= |script|
    requires Progress(d, script[|Body(log[..k])|..], all, share, MUNGE_MODE_XOR)
    ensures |Body(log[..k + 1])| <= |script|
    ensures Progress(MessageReceived(config, d, log[k], env), script[|Body(log[..k + 1])|..], all, share,
                     MUNGE_MODE_XOR)
  {
    var n := |Body(log[..k])|;
    NextOfLog(log, script, k);
    if |Body(log[..k + 1])| == n {
      NoticeKeepsProgress(config, d, script[n..], all, share, env);
    } else {
      assert script[n..][0] == script[n] && script[n..][1..] == script[n + 1..];
      ReceiveKeepsProgress(config, before, d, script[n..], all, share, MUNGE_MODE_XOR, env);
    }
  }

  lemma ArrivalKeepsSession(y: System, id: SessionId, c: Client, env: Environment)
    requires id in y.clients && y.clients[id] == c && LogFollowsScript(y, id, c) && ClientFollowsScript(y, id, c)
    requires ShareAgrees(y.run.server.shared, y.share)
    requires IsConnected(c.download) && c.received < |LogOf(y.run.server, id)|
    ensures var log := LogOf(y.run.server, id);
      var r := ClientStep(c, DiskSafety.Arrived(log[c.received], env)).(received := c.received + 1);
      var t := WithClient(y, id, r);
      LogFollowsScript(t, id, r) && ClientFollowsScript(t, id, r)
  {
    hide MessageReceived, Progress, Script, Openable, Body;
    var log := LogOf(y.run.server, id);
    OpenableSizesAgree(c.config.requested, y.run.server.shared, y.share);
    DiskSafety.StepKeepsClean(c.config, c.before, c.download, DiskSafety.Arrived(log[c.received], env));
    ArrivalKeepsProgress(c.config, c.before, c.download, log, c.received, ScriptOf(y, c),
                         Openable(Wanted(y, c), y.share), y.share, env);
  }

  lemma ArrivalKeepsInv(y: System, id: SessionId, env: Environment)
    requires Inv(y) && id in y.clients
    requires IsConnected(y.clients[id].download) && y.clients[id].received < |LogOf(y.run.server, id)|
    requires HandleIsBacked(y.clients[id].download)
    ensures var c, log := y.clients[id], LogOf(y.run.server, id);
      Inv(WithClient(y, id, ClientStep(c, DiskSafety.Arrived(log[c.received], env)).(received := c.received + 1)))
  {
    hide ServerOk, LogFollowsScript, ClientFollowsScript, HandleIsBacked, ClientStep, LogOf;
    var c, log := y.clients[id], LogOf(y.run.server, id);
    ServerOkIsTidy(y.run, y.share, y.clients.Keys);
    ArrivalKeepsSession(y, id, c, env);
    OthersKept(y, id, ClientStep(c, DiskSafety.Arrived(log[c.received], env)).(received := c.received + 1));
  }

  // ----- A file list arrives -----

  lemma ListScripted(s: Server, share: Disk, id: SessionId, names: seq<string>)
    requires Tidy(s, share) && id in s.peers && IsUnlisted(s.sent[id], s.peers[id])
    ensures var r := HandleFileList(s, id, names, Some(MUNGE_MODE_XOR), share);
      var m := Recorded(s, id, names, Some(MUNGE_MODE_XOR));
      && Tidy(r, share) && Moves(m, r) && r.sent.Keys == s.sent.Keys && r.shared == s.shared
      && m.peers[id] == NEW_PEER.(requestedFiles := Resolve(names, s.shared), mungeMode := MUNGE_MODE_XOR)
  {
    FirstListTidy(s, id, names, share);
    RecordedTidy(s, id, names, share);
  }

  lemma ListServer(run: Admission.Run, share: Disk, ids: set<SessionId>, id: SessionId, names: seq<string>)
    requires ServerOk(run, share, ids) && id in run.server.peers && id in run.lists && run.lists[id] == 0
    requires id in run.server.sent && IsUnlisted(run.server.sent[id], run.server.peers[id])
    ensures var t := Admission.Step(run, Admission.Listed(id, names, Some(MUNGE_MODE_XOR), share));
      var m := Recorded(run.server, id, names, Some(MUNGE_MODE_XOR));
      && ServerOk(t, share, ids) && Moves(m, t.server) && t.lists == run.lists[id := 1]
      && m.peers[id] == NEW_PEER.(requestedFiles := Resolve(names, run.server.shared), mungeMode := MUNGE_MODE_XOR)
  {
    hide Tidy, Admission.Good, Moves, Recorded, HandleFileList, Resolve;
    Admission.StepKeepsGood(run, Admission.Listed(id, names, Some(MUNGE_MODE_XOR), share));
    ListScripted(run.server, share, id, names);
  }

  /** The moment between recording the request and acting on it. */
  function Asked(y: System, id: SessionId, c: Client): System
    requires id in y.run.server.peers
  {
    var m := Recorded(y.run.server, id, c.config.requested, Some(MUNGE_MODE_XOR));
    WithClient(y, id, c.(toServer := [])).(run := Admission.Run(m, y.run.lists[id := 1]))
  }

  lemma AskedKeepsSession(y: System, id: SessionId, c: Client, x: SessionId)
    requires id in y.run.server.peers && id in y.run.lists && id in y.clients && y.clients[id] == c
    requires x in y.clients && LogFollowsScript(y, x, y.clients[x]) && ClientFollowsScript(y, x, y.clients[x])
    requires c.isLinked && c.toServer != []
    ensures var t := Asked(y, id, c);
      LogFollowsScript(t, x, t.clients[x]) && ClientFollowsScript(t, x, t.clients[x])
  {
  }

  lemma ListKeepsInv(y: System, id: SessionId)
    requires Inv(y) && id in y.clients && id in y.run.lists && id in y.run.server.peers
    requires y.clients[id].toServer == Greeting(y.clients[id].config)[1..]
    ensures Inv(Deliver(y, id, y.clients[id]))
  {
    hide ServerOk, LogFollowsScript, ClientFollowsScript, Moves, Tidy, Admission.Step, Recorded, Greeting;
    var c := y.clients[id];
    GreetingShape(c.config);
    ServerOkIsTidy(y.run, y.share, y.clients.Keys);
    var m := Asked(y, id, c);
    var t := Deliver(y, id, c);
    AskerIsUnlisted(y, id, c);
    ListServer(y.run, y.share, y.clients.Keys, id, c.config.requested);
    assert t.clients.Keys == y.clients.Keys && t.clients == m.clients;
    ServerOkIsTidy(t.run, t.share, t.clients.Keys);
    forall x | x in t.clients
      ensures LogFollowsScript(t, x, t.clients[x]) && ClientFollowsScript(t, x, t.clients[x])
    {
      AskedKeepsSession(y, id, c, x);
      MoveKeepsLog(m, t, x);
      MoveKeepsClient(m, t, x);
    }
  }

  lemma ServerOkIsTidy(run: Admission.Run, share: Disk, ids: set<SessionId>)
    requires ServerOk(run, share, ids)
    ensures Tidy(run.server, share) && Valid(run.server) && ShareAgrees(run.server.shared, share)
  {
  }

  lemma AskerIsUnlisted(y: System, id: SessionId, c: Client)
    requires ServerOk(y.run, y.share, y.clients.Keys) && id in y.clients && y.clients[id] == c
    requires LogFollowsScript(y, id, c) && ClientFollowsScript(y, id, c)
    requires id in y.run.lists && id in y.run.server.peers && c.toServer != []
    ensures c.isLinked && y.run.lists[id] == 0 && id in y.run.server.sent
    ensures IsUnlisted(y.run.server.sent[id], y.run.server.peers[id])
  {
  }

  lemma IgnoredKeepsSession(y: System, id: SessionId, c: Client)
    requires id in y.clients && y.clients[id] == c && id in y.run.lists && c.toServer != []
    requires LogFollowsScript(y, id, c) && ClientFollowsScript(y, id, c)
    requires c.toServer[0].FileList? ==> id !in y.run.server.peers
    ensures var r := c.(toServer := c.toServer[1..]);
      var t := WithClient(y, id, r);
      LogFollowsScript(t, id, r) && ClientFollowsScript(t, id, r)
  {
    GreetingShape(c.config);
  }

  lemma ListIgnored(run: Admission.Run, id: SessionId, names: seq<string>, share: Disk)
    requires Valid(run.server)
    ensures id !in run.server.peers ==>
      Admission.Step(run, Admission.Listed(id, names, Some(MUNGE_MODE_XOR), share)) == run
  {
  }

  lemma ToServerShape(y: System, id: SessionId, c: Client)
    requires ClientFollowsScript(y, id, c)
    ensures c.toServer == [] || c.toServer == Greeting(c.config) || c.toServer == Greeting(c.config)[1..]
  {
  }

  lemma DeliverKeepsInv(y: System, id: SessionId)
    requires Inv(y) && id in y.clients && id in y.run.lists && y.clients[id].toServer != []
    ensures Inv(Deliver(y, id, y.clients[id]))
  {
    hide ServerOk, LogFollowsScript, ClientFollowsScript, Admission.Step, Greeting;
    var c := y.clients[id];
    GreetingShape(c.config);
    ToServerShape(y, id, c);
    if c.toServer[0].FileList? && id in y.run.server.peers {
      ListKeepsInv(y, id);
    } else {
      ServerOkIsTidy(y.run, y.share, y.clients.Keys);
      ListIgnored(y.run, id, c.config.requested, y.share);
      IgnoredKeepsSession(y, id, c);
      OthersKept(y, id, c.(toServer := c.toServer[1..]));
    }
  }

  // ----- A download joins -----

  lemma JoinKeepsInv(y: System, id: SessionId, config: Config, disk: map<string, seq<Byte>>)
    requires Inv(y) && id !in y.clients
    ensures Inv(WithClient(y, id, Client(config, disk, Start(config, Fresh(disk), true), false, [], 0)))
  {
    var c := Client(config, disk, Start(config, Fresh(disk), true), false, [], 0);
    var t := WithClient(y, id, c);
    NewcomerFollowsScript(y, id, c);
    forall x | x in t.clients
      ensures LogFollowsScript(t, x, t.clients[x]) && ClientFollowsScript(t, x, t.clients[x])
    {
      if x != id {
        OtherKept(y, t, x);
      }
    }
    ListedIdsKnown(y.run, y.share, y.clients.Keys);
  }

  lemma NewcomerFollowsScript(y: System, id: SessionId, c: Client)
    requires ServerOk(y.run, y.share, y.clients.Keys) && id !in y.clients
    requires c == Client(c.config, c.before, Start(c.config, Fresh(c.before), true), false, [], 0)
    ensures var t := WithClient(y, id, c);
      LogFollowsScript(t, id, c) && ClientFollowsScript(t, id, c)
  {
    ListedIdsKnown(y.run, y.share, y.clients.Keys);
    assert id !in y.run.server.sent && id !in y.run.server.peers;
  }

  // ----- Every run -----

  lemma HandlesBacked(y: System)
    requires Inv(y)
    ensures Valid(y.run.server) && forall id | id in y.clients :: HandleIsBacked(y.clients[id].download)
  {
    ListedIdsKnown(y.run, y.share, y.clients.Keys);
    forall id | id in y.clients ensures HandleIsBacked(y.clients[id].download) {
      assert ClientFollowsScript(y, id, y.clients[id]);
    }
  }

  lemma StepKeepsInv(y: System, a: Action)
    requires Inv(y) && Valid(y.run.server)
    requires forall id | id in y.clients :: HandleIsBacked(y.clients[id].download)
    ensures Inv(Step(y, a))
  {
    hide Inv, ServerStep, ClientStep, Deliver, LogOf, WithClient, IsConnected, HandleIsBacked, Valid;
    if a.Join? {
      if a.id !in y.clients {
        JoinKeepsInv(y, a.id, a.config, a.disk);
      }
    } else if a.id in y.clients {
      var id, c := a.id, y.clients[a.id];
      match a
      case Accept(_) => AcceptKeepsInv(y, id);
      case LinkUp(_) =>
        if !c.isLinked && c.download.state.Connecting? {
          LinkUpKeepsInv(y, id);
        }
      case ToServer(_) =>
        if id in y.run.lists && c.toServer != [] {
          DeliverKeepsInv(y, id);
        }
      case Drain(_) => DrainKeepsInv(y, id);
      case ToClient(_, env) =>
        if IsConnected(c.download) && c.received < |LogOf(y.run.server, id)| {
          ArrivalKeepsInv(y, id, env);
        }
      case HangUp(_) => EndKeepsInv(y, id, DiskSafety.HungUp);
      case Cancel(_) => EndKeepsInv(y, id, DiskSafety.Cancelled);
      case Leave(_) => LeaveKeepsInv(y, id);
    }
  }

  lemma StepKeepsShare(y: System, a: Action)
    requires Valid(y.run.server)
    requires forall id | id in y.clients :: HandleIsBacked(y.clients[id].download)
    ensures Step(y, a).share == y.share && Step(y, a).run.server.shared == y.run.server.shared
  {
    hide Valid, HandleIsBacked, Admission.Step, ClientStep, Greeting, LogOf, IsConnected;
    match a
    case Accept(id) => ServerKeepsShared(y.run, Admission.Accepted(id));
    case ToServer(id) =>
      if id in y.clients && y.clients[id].toServer != [] && y.clients[id].toServer[0].FileList? {
        var list := y.clients[id].toServer[0];
        ServerKeepsShared(y.run, Admission.Listed(id, list.names, list.mungeMode, y.share));
      }
    case Drain(id) => ServerKeepsShared(y.run, Admission.Drained(id, y.share));
    case Leave(id) => ServerKeepsShared(y.run, Admission.Detached(id, y.share));
    case _ =>
  }

  lemma ServerKeepsShared(run: Admission.Run, e: Admission.Event)
    requires Valid(run.server) && !e.Shared?
    ensures Admission.Step(run, e).server.shared == run.server.shared
  {
  }

  function Quiet(shared: map<string, SharedFile>, share: Disk, maxUploads: nat): System {
    System(Admission.Run(Server([], map[], shared, maxUploads, map[], map[]), map[]), share, map[])
  }

  ghost function After(shared: map<string, SharedFile>, share: Disk, maxUploads: nat, actions: seq<Action>): (y: System)
    requires maxUploads >= 1 && ShareAgrees(shared, share)
    ensures Inv(y) && y.share == share && y.run.server.shared == shared
  {
    if actions == [] then Quiet(shared, share, maxUploads)
    else
      var last := |actions| - 1;
      var y := After(shared, share, maxUploads, actions[..last]);
      HandlesBacked(y);
      StepKeepsInv(y, actions[last]);
      StepKeepsShare(y, actions[last]);
      Step(y, actions[last])
  }

  /** End to end, over every interleaving. What session id has received is an optional
      waiting notice and then a prefix of the script of the files it named itself: for
      each openable one, in request order, a header and then its munged chunks. No other
      session's requests appear in it. Every file the download has reported complete is,
      on the downloader's disk, byte for byte the shared one, and the reported files are
      the openable ones it asked for, in order and without a gap. */
  lemma TransfersAreFaithful(shared: map<string, SharedFile>, share: Disk, maxUploads: nat, actions: seq<Action>,
                             id: SessionId)
    requires maxUploads >= 1 && ShareAgrees(shared, share)
    ensures var y := After(shared, share, maxUploads, actions);
      id in y.clients ==>
        var c := y.clients[id];
        var log := LogOf(y.run.server, id);
        var files := Resolve(c.config.requested, shared);
        && c.received <= |log|
        && Body(log[..c.received]) <= Script(files, share, MUNGE_MODE_XOR)
        && Matches(c.download, Openable(files, share), share)
  {
    var y := After(shared, share, maxUploads, actions);
    if id in y.clients {
      var c := y.clients[id];
      assert LogFollowsScript(y, id, c) && ClientFollowsScript(y, id, c);
      BodyMonotone(LogOf(y.run.server, id), c.received);
    }
  }

  lemma BodyMonotone(log: seq<Message>, k: nat)
    requires k <= |log|
    ensures Body(log[..k]) <= Body(log)
  {
  }

  /** A connected download has received every message its requests give rise to. */
  ghost predicate WholeScriptReceived(y: System, id: SessionId) {
    id in y.clients &&
      var c, log := y.clients[id], LogOf(y.run.server, id);
      IsConnected(c.download) && c.received <= |log| && Body(log[..c.received]) == ScriptOf(y, c)
  }

  /** The openable ones among the files a client asked for, in request order. */
  function Obtainable(y: System, c: Client): (all: seq<SharedFile>)
    ensures forall f | f in all :: f.absolutePath in y.share
  {
    Openable(Wanted(y, c), y.share)
  }

  /** Nothing at all, or an empty file at the end. */
  predicate EndsEmpty(all: seq<SharedFile>, share: Disk) {
    all != [] ==> all[|all| - 1].absolutePath in share && share[all[|all| - 1].absolutePath] == []
  }

  lemma AtScriptEnd(y: System, id: SessionId)
    requires Inv(y) && WholeScriptReceived(y, id)
    ensures var d, all := y.clients[id].download, Obtainable(y, y.clients[id]);
      && Matches(d, all, y.share)
      && (|| (|d.completed| == |all| && !d.isOpen && EndsWithContent(d, all, y.share))
          || (|d.completed| + 1 == |all| && d.isOpen && EndsEmpty(all, y.share)))
  {
    hide Matches, Synced, Script, Resolve, Openable, EndsWithContent, DiskSafety.CleanDisk, LogFollowsScript, ServerOk;
    var c := y.clients[id];
    assert ClientFollowsScript(y, id, c);
    assert ScriptOf(y, c)[|ScriptOf(y, c)|..] == [];
    WholeScriptArrived(c.download, Obtainable(y, c), y.share, MUNGE_MODE_XOR);
  }

  /** Once a connected download has received its whole script, everything it asked for and
      could be opened is complete on its disk; only a trailing empty file is still open. */
  lemma DeliveredMeansComplete(shared: map<string, SharedFile>, share: Disk, maxUploads: nat, actions: seq<Action>,
                               id: SessionId)
    requires maxUploads >= 1 && ShareAgrees(shared, share)
    ensures var y := After(shared, share, maxUploads, actions);
      WholeScriptReceived(y, id) ==>
        var d, all := y.clients[id].download, Obtainable(y, y.clients[id]);
        && Matches(d, all, share)
        && (if d.isOpen then |d.completed| + 1 == |all| && EndsEmpty(all, share) else |d.completed| == |all|)
  {
    hide After, Inv, Matches, Obtainable, EndsEmpty, EndsWithContent;
    if WholeScriptReceived(After(shared, share, maxUploads, actions), id) {
      AtScriptEnd(After(shared, share, maxUploads, actions), id);
    }
  }

  /** Nothing is under way: the server has taken the request up, no notification is
      outstanding, and what was sent has been received. */
  predicate IsQuiet(y: System, id: SessionId) {
    var s := y.run.server;
    && id in y.clients && id in s.peers && id in s.drains
    && HasAsked(y.clients[id]) && IsConnected(y.clients[id].download)
    && !s.peers[id].isQueued && s.drains[id] == 0 && y.clients[id].received == |LogOf(s, id)|
  }

  lemma ThroughIsSent(sent: seq<Message>, p: PeerUpload, share: Disk)
    requires (IsUnlisted(sent, p) || OnScript(sent, p, share)) && IsThrough(p)
    ensures Body(sent) == Script(p.requestedFiles, share, p.mungeMode)
  {
    if OnScript(sent, p, share) {
      assert p.requestedFiles[p.nextFileIndex..] == [];
      assert Future(p, share) == [];
      assert Body(sent) + [] == Body(sent);
    }
  }

  lemma QuietIsThrough(y: System, id: SessionId)
    requires Inv(y) && IsQuiet(y, id)
    ensures Body(LogOf(y.run.server, id)) == ScriptOf(y, y.clients[id])
  {
    hide Script, Resolve, ClientFollowsScript, OnScript, IsUnlisted, Body, Admission.WellPaced;
    var s, c := y.run.server, y.clients[id];
    assert LogFollowsScript(y, id, c);
    assert IsThrough(s.peers[id]);
    ThroughIsSent(s.sent[id], s.peers[id], y.share);
  }

  /** The transfer does not stop short: in every interleaving, when nothing is under way for
      a connected download that is not waiting, it has received its whole script, and so
      everything it asked for and could be opened. */
  lemma QuietMeansDelivered(shared: map<string, SharedFile>, share: Disk, maxUploads: nat, actions: seq<Action>,
                            id: SessionId)
    requires maxUploads >= 1 && ShareAgrees(shared, share)
    ensures var y := After(shared, share, maxUploads, actions);
      IsQuiet(y, id) ==> WholeScriptReceived(y, id)
  {
    hide After, Inv;
    var y := After(shared, share, maxUploads, actions);
    if IsQuiet(y, id) {
      QuietIsThrough(y, id);
      assert LogOf(y.run.server, id)[..y.clients[id].received] == LogOf(y.run.server, id);
    }
  }

  /** Between two files with every obtainable one complete, nothing is left to receive. */
  lemma NothingLeft(d: Download, remaining: seq<Message>, all: seq<SharedFile>, share: Disk)
    requires IsConnected(d) && !d.isOpen && Progress(d, remaining, all, share, MUNGE_MODE_XOR)
    requires |d.completed| == |all|
    ensures remaining == [] && EndsWithContent(d, all, share)
  {
    hide Matches, EndsWithContent, Openable, Script;
    var rest :| AtBoundary(d, all, rest, share) && remaining == Script(rest, share, MUNGE_MODE_XOR);
    assert all[|d.completed|..] == [];
    var _ := ScriptHead(rest, share, MUNGE_MODE_XOR);
  }

  lemma AllCompleteMeansAllReceived(y: System, id: SessionId)
    requires Inv(y) && id in y.clients && IsConnected(y.clients[id].download) && !y.clients[id].download.isOpen
    requires |y.clients[id].download.completed| == |Obtainable(y, y.clients[id])|
    ensures WholeScriptReceived(y, id)
    ensures EndsWithContent(y.clients[id].download, Obtainable(y, y.clients[id]), y.share)
  {
    hide Progress, Script, Resolve, Openable, EndsWithContent, DiskSafety.CleanDisk, ServerOk, Body;
    var c, log := y.clients[id], LogOf(y.run.server, id);
    assert LogFollowsScript(y, id, c) && ClientFollowsScript(y, id, c);
    var received := Body(log[..c.received]);
    NothingLeft(c.download, ScriptOf(y, c)[|received|..], Obtainable(y, c), y.share);
    BodyMonotone(log, c.received);
  }

  /** What a hang-up makes of any connected download, at any moment of any run. It ends
      well exactly when some file is complete and none is open, and what was complete stays.
      It ends well with nothing missing exactly when the whole script had arrived and the
      last obtainable file is not empty: an empty one at the end is still open, and the
      hang-up discards it. */
  lemma HangUpOutcome(shared: map<string, SharedFile>, share: Disk, maxUploads: nat, actions: seq<Action>,
                      id: SessionId)
    requires maxUploads >= 1 && ShareAgrees(shared, share)
    ensures var y := After(shared, share, maxUploads, actions);
      id in y.clients && IsConnected(y.clients[id].download) ==>
        var d, all := y.clients[id].download, Obtainable(y, y.clients[id]);
        var r := SessionDisconnected(d);
        && (r.state.Finished? <==> !d.isOpen && d.completed != [])
        && r.completed == d.completed && Matches(r, all, share)
        && (r.state.Finished? && |r.completed| == |all| <==> WholeScriptReceived(y, id) && !EndsEmpty(all, share))
        && (WholeScriptReceived(y, id) && r.state.Finished? ==> |r.completed| == |all|)
  {
    hide After, Inv, Obtainable, Matches;
    var y := After(shared, share, maxUploads, actions);
    if id in y.clients && IsConnected(y.clients[id].download) {
      var d, all := y.clients[id].download, Obtainable(y, y.clients[id]);
      HangUpMatches(y, id);
      if WholeScriptReceived(y, id) {
        AtScriptEnd(y, id);
      }
      if !d.isOpen && |d.completed| == |all| {
        AllCompleteMeansAllReceived(y, id);
      }
    }
  }

  lemma ClientMatches(y: System, id: SessionId)
    requires Inv(y) && id in y.clients
    ensures Matches(y.clients[id].download, Obtainable(y, y.clients[id]), y.share)
  {
    hide Matches, Script, DiskSafety.CleanDisk, ServerOk, LogFollowsScript;
    assert ClientFollowsScript(y, id, y.clients[id]);
  }

  lemma HangUpMatches(y: System, id: SessionId)
    requires Inv(y) && id in y.clients && IsConnected(y.clients[id].download)
    ensures Matches(SessionDisconnected(y.clients[id].download), Obtainable(y, y.clients[id]), y.share)
  {
    hide Inv, Matches, Openable;
    HandlesBacked(y);
    StepKeepsInv(y, HangUp(id));
    ClientMatches(Step(y, HangUp(id)), id);
  }
}
