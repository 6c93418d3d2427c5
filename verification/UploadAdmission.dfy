// Pacing and the cap: invariants of the upload server over every run of accepts, file
// lists, drain notifications and departures, on a disk that may change between any two
// of them, and what each of these does to slots, open files and notifications.

module UploadAdmission {

  import opened Prelude
  import opened TransferProtocol
  import opened UploadServer
  import opened UploadProgress

  datatype Event =
    | Accepted(id: SessionId)
    | Listed(id: SessionId, names: seq<string>, mungeMode: Option<int>, disk: Disk)
    | Drained(id: SessionId, disk: Disk)
    | Detached(id: SessionId, disk: Disk)
    | Shared(files: map<string, SharedFile>)

  /** The server, and how many file lists each session has sent it so far. */
  datatype Run = Run(server: Server, lists: map<SessionId, nat>)

  function Queued(s: Server, id: SessionId): nat {
    if id in s.peers && s.peers[id].isQueued then 1 else 0
  }

  /** Drain notifications on their way plus the promise that a queued peer will be begun. */
  function Tokens(s: Server, id: SessionId): nat
    requires id in s.drains
  {
    s.drains[id] + Queued(s, id)
  }

  function OpenIds(peers: map<SessionId, PeerUpload>): set<SessionId> {
    set id | id in peers && peers[id].currentFile.Some?
  }

  // ----- What the mutual recursion does -----

  ghost predicate SamePeers(s: Server, r: Server) {
    && r.peers.Keys == s.peers.Keys && r.drains.Keys == s.drains.Keys && r.sent.Keys == s.sent.Keys
    && r.order == s.order && r.maxUploads == s.maxUploads
    && (forall id | id in s.peers :: r.peers[id].requestedFiles == s.peers[id].requestedFiles)
    && (forall id | id in s.peers && r.peers[id].isQueued :: s.peers[id].isQueued)
  }

  /** Nobody loses a slot, waiting peers only get fewer, and the cap bounds every gain. */
  ghost predicate SlotsGrow(s: Server, r: Server) {
    && ActiveIds(s.peers) <= ActiveIds(r.peers)
    && WaitingIds(r.peers) <= WaitingIds(s.peers)
    && (ActiveCount(r) <= ActiveCount(s) || ActiveCount(r) <= r.maxUploads)
  }

  /** If nobody but served peers had a file open, nobody but served peers has. */
  ghost predicate FilesKept(s: Server, r: Server) {
    OpenIds(s.peers) <= ActiveIds(s.peers) ==> OpenIds(r.peers) <= ActiveIds(r.peers)
  }

  /** Tokens are not created, except one for the session in credit. */
  ghost predicate TokensBounded(s: Server, r: Server, credit: set<SessionId>) {
    forall id | id in s.drains && id in r.drains ::
      Tokens(r, id) <= Tokens(s, id) + if id in credit then 1 else 0
  }

  lemma BeginFileEffect(s: Server, id: SessionId, disk: Disk)
    requires Valid(s) && id in s.peers
    ensures var r := BeginFile(s, id, disk);
      && Valid(r) && SamePeers(s, r)
      && ActiveIds(r.peers) == ActiveIds(s.peers) && WaitingIds(r.peers) == WaitingIds(s.peers)
      && OpenIds(r.peers) == (OpenIds(s.peers) - {id}) + (if Begins(s, id, disk) then {id} else {})
      && (Begins(s, id, disk) ==> s.peers[id].requestedFiles != [])
      && TokensBounded(s, r, {}) && r.drains == s.drains
  {
  }

  lemma SendChunkEffect(s: Server, id: SessionId)
    requires Valid(s) && id in s.peers && s.peers[id].currentFile.Some?
    ensures var r := SendChunk(s, id);
      && Valid(r) && SamePeers(s, r)
      && ActiveIds(r.peers) == ActiveIds(s.peers) && WaitingIds(r.peers) == WaitingIds(s.peers)
      && OpenIds(r.peers) == OpenIds(s.peers)
      && TokensBounded(s, r, {id})
  {
  }

  lemma {:induction false} SendNextChunkEffect(s: Server, id: SessionId, disk: Disk)
    requires Valid(s) && id in s.peers
    ensures var r := SendNextChunk(s, id, disk);
      SamePeers(s, r) && SlotsGrow(s, r) && FilesKept(s, r) && TokensBounded(s, r, {id})
    decreases WaitingIds(s.peers), Remaining(s.peers[id]) + 1
  {
    var p := s.peers[id];
    if p.currentFile.None? {
    } else if NextBytes(p.currentFile.value) != [] {
      SendChunkEffect(s, id);
    } else {
      var r := BeginFile(s, id, disk);
      BeginFileEffect(s, id, disk);
      assert id in OpenIds(s.peers);
      if Begins(s, id, disk) {
        SendNextChunkEffect(r, id, disk);
      } else {
        StartNextEffect(r, disk);
      }
    }
  }

  lemma UnqueuedEffect(s: Server, id: SessionId)
    requires Valid(s) && id in s.peers && IsWaiting(s.peers[id])
    ensures var r := Unqueued(s, id);
      && Valid(r) && SamePeers(s, r)
      && ActiveIds(r.peers) == ActiveIds(s.peers) + {id} && id !in ActiveIds(s.peers)
      && WaitingIds(r.peers) == WaitingIds(s.peers) - {id}
      && OpenIds(r.peers) == OpenIds(s.peers)
      && TokensBounded(s, r, {}) && Tokens(r, id) + 1 == Tokens(s, id)
  {
  }

  lemma BeginAndSendEffect(s: Server, id: SessionId, disk: Disk)
    requires Valid(s) && id in s.peers
    ensures var r := BeginAndSend(s, id, disk);
      && SamePeers(s, r) && SlotsGrow(s, r) && TokensBounded(s, r, {id})
      && (!s.peers[id].isQueued && OpenIds(s.peers) - {id} <= ActiveIds(s.peers) ==>
            OpenIds(r.peers) <= ActiveIds(r.peers))
    decreases WaitingIds(s.peers), Remaining(s.peers[id]) + 2
  {
    var begun := BeginFile(s, id, disk);
    BeginFileEffect(s, id, disk);
    if Begins(s, id, disk) {
      SendNextChunkEffect(begun, id, disk);
    }
  }

  lemma {:induction false} StartNextEffect(s: Server, disk: Disk)
    requires Valid(s)
    ensures var r := StartNextQueuedPeer(s, disk);
      SamePeers(s, r) && SlotsGrow(s, r) && FilesKept(s, r) && TokensBounded(s, r, {})
    ensures ActiveCount(s) < s.maxUploads ==>
      var first := FirstWaiting(s.order, s.peers);
      first.Some? ==> first.value in ActiveIds(StartNextQueuedPeer(s, disk).peers) - ActiveIds(s.peers)
    decreases WaitingIds(s.peers), 0
  {
    var next := FirstWaiting(s.order, s.peers);
    if ActiveCount(s) >= s.maxUploads || next.None? {
    } else {
      var id := next.value;
      var m := Unqueued(s, id);
      UnqueuedEffect(s, id);
      assert ActiveCount(m) == ActiveCount(s) + 1;
      BeginAndSendEffect(m, id, disk);
      EffectsCompose(s, m, BeginAndSend(m, id, disk), id);
    }
  }

  /** Admitting one waiting peer costs the token that its first chunk gives back. */
  lemma EffectsCompose(s: Server, m: Server, r: Server, id: SessionId)
    requires SamePeers(s, m) && SamePeers(m, r) && id in s.drains
    requires SlotsGrow(s, m) && SlotsGrow(m, r) && FilesKept(s, m)
    requires OpenIds(m.peers) <= ActiveIds(m.peers) ==> OpenIds(r.peers) <= ActiveIds(r.peers)
    requires TokensBounded(s, m, {}) && TokensBounded(m, r, {id}) && Tokens(m, id) + 1 <= Tokens(s, id)
    requires ActiveCount(m) <= m.maxUploads
    ensures SamePeers(s, r) && SlotsGrow(s, r) && FilesKept(s, r) && TokensBounded(s, r, {})
  {
    forall x | x in s.drains && x in r.drains ensures Tokens(r, x) <= Tokens(s, x) {
      assert x in m.drains;
    }
  }

  lemma ActiveCountMonotone(s: Server, r: Server)
    requires ActiveIds(s.peers) <= ActiveIds(r.peers)
    ensures ActiveCount(s) <= ActiveCount(r)
  {
    SubsetSize(ActiveIds(s.peers), ActiveIds(r.peers));
  }

  // ----- Runs -----

  ghost function Step(r: Run, e: Event): Run
    requires Valid(r.server)
  {
    var s := r.server;
    match e
    case Accepted(id) =>   // session IDs are not reused
      if id in r.lists then r else Run(SessionAccepted(s, id), r.lists[id := 0])
    case Listed(id, names, mungeMode, disk) =>
      if id in s.peers && id in r.lists
      then Run(HandleFileList(s, id, names, mungeMode, disk), r.lists[id := r.lists[id] + 1])
      else r
    case Drained(id, disk) =>
      if id in s.drains && s.drains[id] > 0 then r.(server := OutputQueuesDrained(s, id, disk)) else r
    case Detached(id, disk) => r.(server := SessionDetached(s, id, disk))
    case Shared(files) => r.(server := s.(shared := files))
  }

  ghost predicate OneListEach(r: Run) {
    forall id | id in r.lists :: r.lists[id] <= 1
  }

  ghost predicate WellPaced(r: Run) {
    && Valid(r.server) && r.server.maxUploads >= 1
    && r.server.drains.Keys == r.lists.Keys
    && (forall id | id in r.lists :: Tokens(r.server, id) <= r.lists[id])
    && (forall id | id in r.server.peers && r.lists[id] == 0 ::
          r.server.peers[id].requestedFiles == [] && !r.server.peers[id].isQueued)
  }

  /** Pacing, the cap on the peers being served, and nobody stalled. */
  ghost predicate Good(r: Run) {
    WellPaced(r) && ActiveCount(r.server) <= r.server.maxUploads && Driven(r.server, {})
  }

  lemma AcceptKeepsPace(r: Run, id: SessionId)
    requires WellPaced(r) && id !in r.lists
    ensures WellPaced(Step(r, Accepted(id)))
  {
    assert id !in r.server.peers;
  }

  lemma AcceptedIsNew(r: Run, id: SessionId)
    requires WellPaced(r) && id !in r.lists
    ensures id !in r.server.peers
  {
  }

  lemma AcceptedHoldsNoSlot(s: Server, id: SessionId)
    requires Valid(s) && id !in s.peers
    ensures var t := SessionAccepted(s, id);
      && ActiveIds(t.peers) == ActiveIds(s.peers) && WaitingIds(t.peers) == WaitingIds(s.peers)
      && OpenIds(t.peers) == OpenIds(s.peers) && t.maxUploads == s.maxUploads
  {
  }

  lemma DrainEffect(s: Server, id: SessionId, disk: Disk)
    requires Valid(s) && id in s.drains && s.drains[id] > 0
    ensures var t := OutputQueuesDrained(s, id, disk);
      && SamePeers(s, t) && SlotsGrow(s, t) && TokensBounded(s, t, {}) && Valid(t)
      && (Queued(s, id) == 0 ==> FilesKept(s, t))
  {
    var taken := s.(drains := s.drains[id := s.drains[id] - 1]);
    if id in s.peers {
      var t := OutputQueuesDrained(s, id, disk);
      if s.peers[id].currentFile.Some? {
        SendNextChunkEffect(taken, id, disk);
      } else {
        BeginAndSendEffect(taken, id, disk);
      }
      TokenSpentAndRegained(s, taken, t, id);
    }
  }

  lemma TokenSpentAndRegained(s: Server, m: Server, r: Server, id: SessionId)
    requires id in s.drains && s.drains[id] > 0
    requires m == s.(drains := s.drains[id := s.drains[id] - 1])
    requires TokensBounded(m, r, {id}) && r.drains.Keys == m.drains.Keys
    ensures TokensBounded(s, r, {})
  {
    forall x | x in s.drains && x in r.drains ensures Tokens(r, x) <= Tokens(s, x) {
      assert x in m.drains;
      assert Tokens(m, x) == if x == id then Tokens(s, x) - 1 else Tokens(s, x);
    }
  }

  lemma RemovedEffect(s: Server, id: SessionId)
    requires Valid(s) && id in s.peers
    ensures var r := Removed(s, id);
      && Valid(r)
      && ActiveIds(r.peers) == ActiveIds(s.peers) - {id}
      && WaitingIds(r.peers) == WaitingIds(s.peers) - {id}
      && OpenIds(r.peers) == OpenIds(s.peers) - {id}
      && TokensBounded(s, r, {})
  {
    WithoutDistinct(s.order, id);
  }

  /** The table a departure leaves behind, before anybody is promoted. */
  function Left(s: Server, id: SessionId): Server {
    if id in s.peers then Removed(s, id) else s
  }

  lemma LeftKeepsPace(r: Run, id: SessionId)
    requires WellPaced(r)
    ensures WellPaced(Run(Left(r.server, id), r.lists))
  {
    if id in r.server.peers {
      RemovedEffect(r.server, id);
    }
  }

  lemma PromotionKeepsPace(r: Run, disk: Disk)
    requires WellPaced(r)
    ensures WellPaced(Run(StartNextQueuedPeer(r.server, disk), r.lists))
  {
    StartNextEffect(r.server, disk);
  }

  lemma DetachKeepsPace(r: Run, id: SessionId, disk: Disk)
    requires WellPaced(r)
    ensures WellPaced(Step(r, Detached(id, disk)))
  {
    LeftKeepsPace(r, id);
    PromotionKeepsPace(Run(Left(r.server, id), r.lists), disk);
  }

  lemma WaitersAreFound(s: Server)
    requires Valid(s)
    ensures FirstWaiting(s.order, s.peers).Some? <==> WaitingIds(s.peers) != {}
  {
    if WaitingIds(s.peers) != {} {
      var id :| id in WaitingIds(s.peers);
      assert id in s.order;
    }
    if FirstWaiting(s.order, s.peers).Some? {
      assert FirstWaiting(s.order, s.peers).value in WaitingIds(s.peers);
    }
  }

  lemma QueuedEffect(m: Server, id: SessionId, t: Server)
    requires Valid(m) && id in m.peers && t == Put(m, id, m.peers[id].(isQueued := true), [NotifyQueued])
    ensures ActiveIds(t.peers) == ActiveIds(m.peers) - {id}
    ensures WaitingIds(t.peers) <= WaitingIds(m.peers) + {id}
    ensures m.peers[id].requestedFiles == [] ==> WaitingIds(t.peers) <= WaitingIds(m.peers)
    ensures OpenIds(t.peers) == OpenIds(m.peers) && t.maxUploads == m.maxUploads
  {
  }

  /** A request changes the tokens of its sender only, and by one at most. */
  ghost predicate RequestEffect(s: Server, t: Server, id: SessionId) {
    && Valid(t) && TokensBounded(s, t, {id}) && t.drains.Keys == s.drains.Keys
    && t.peers.Keys == s.peers.Keys && t.maxUploads == s.maxUploads
    && (forall x | x in s.peers && x != id :: t.peers[x].requestedFiles == s.peers[x].requestedFiles)
    && (forall x | x in s.peers && x != id && t.peers[x].isQueued :: s.peers[x].isQueued)
  }

  lemma UpdatedRequestEffect(s: Server, id: SessionId, p: PeerUpload, t: Server)
    requires Valid(s) && id in s.peers && t.peers == s.peers[id := p]
    requires t.order == s.order && t.drains == s.drains && t.sent.Keys == s.sent.Keys && t.maxUploads == s.maxUploads
    ensures RequestEffect(s, t, id)
    ensures !p.isQueued ==> TokensBounded(s, t, {})
  {
  }

  lemma SentEffect(m: Server, id: SessionId, disk: Disk)
    requires Valid(m) && id in m.peers
    ensures var t := BeginAndSend(m, id, disk);
      RequestEffect(m, t, id) && TokensBounded(m, t, {id})
  {
    BeginAndSendEffect(m, id, disk);
  }

  lemma RequestChain(s: Server, m: Server, t: Server, id: SessionId)
    requires RequestEffect(s, m, id) && TokensBounded(s, m, {}) && RequestEffect(m, t, id)
    ensures RequestEffect(s, t, id)
  {
    TokensChain(s, m, t, id);
  }

  lemma ListEffect(s: Server, id: SessionId, names: seq<string>, mungeMode: Option<int>, disk: Disk)
    requires Valid(s) && id in s.peers
    ensures RequestEffect(s, HandleFileList(s, id, names, mungeMode, disk), id)
  {
    hide RequestEffect, TokensBounded, BeginAndSend, Resolve, ActiveIds;
    var t := HandleFileList(s, id, names, mungeMode, disk);
    var m := Recorded(s, id, names, mungeMode);
    var p := m.peers[id];
    assert m.peers[id := p.(isQueued := true)] == s.peers[id := p.(isQueued := true)];
    assert m.peers[id := p.(isQueued := false)] == s.peers[id := p.(isQueued := false)];
    if ActiveCount(m) < m.maxUploads {
      UpdatedRequestEffect(s, id, p.(isQueued := false), Unqueued(m, id));
      SentEffect(Unqueued(m, id), id, disk);
      RequestChain(s, Unqueued(m, id), t, id);
    } else {
      UpdatedRequestEffect(s, id, p.(isQueued := true), t);
    }
  }

  lemma TokensChain(a: Server, b: Server, c: Server, id: SessionId)
    requires a.drains.Keys == b.drains.Keys == c.drains.Keys
    requires TokensBounded(a, b, {}) && TokensBounded(b, c, {id})
    ensures TokensBounded(a, c, {id})
  {
    forall x | x in a.drains && x in c.drains
      ensures Tokens(c, x) <= Tokens(a, x) + if x in {id} then 1 else 0
    {
      assert x in b.drains;
    }
  }

  lemma ListKeepsPace(r: Run, id: SessionId, names: seq<string>, mungeMode: Option<int>, disk: Disk)
    requires WellPaced(r) && id in r.server.peers && id in r.lists
    ensures WellPaced(Step(r, Listed(id, names, mungeMode, disk)))
  {
    hide HandleFileList, OneListEach, ActiveCount, SlotsGrow, Tokens;
    var t := HandleFileList(r.server, id, names, mungeMode, disk);
    ListEffect(r.server, id, names, mungeMode, disk);
    forall x | x in r.lists ensures Tokens(t, x) <= r.lists[x] + if x == id then 1 else 0 {
      assert Tokens(r.server, x) <= r.lists[x];
    }
  }

  // ----- The cap holds, however often anybody asks -----

  /** A step may fill slots up to the cap, or leave as many in use as it found. */
  ghost predicate WithinCap(s: Server, t: Server) {
    t.maxUploads == s.maxUploads && (ActiveCount(t) <= ActiveCount(s) || ActiveCount(t) <= t.maxUploads)
  }

  lemma DetachStaysWithinCap(s: Server, id: SessionId, disk: Disk)
    requires Valid(s)
    ensures WithinCap(s, SessionDetached(s, id, disk))
  {
    hide ActiveIds, WaitingIds, OpenIds, TokensBounded, StartNextQueuedPeer;
    var left := Left(s, id);
    if id in s.peers {
      RemovedEffect(s, id);
      SubsetSize(ActiveIds(left.peers), ActiveIds(s.peers));
    }
    StartNextEffect(left, disk);
  }

  /** Recording a request changes nobody else's slot. */
  lemma RecordedActive(s: Server, id: SessionId, names: seq<string>, mungeMode: Option<int>)
    requires id in s.peers
    ensures var m := Recorded(s, id, names, mungeMode);
      && ActiveIds(m.peers) - {id} <= ActiveIds(s.peers)
      && ActiveIds(Unqueued(m, id).peers) <= ActiveIds(m.peers) + {id}
  {
  }

  lemma ListStaysWithinCap(s: Server, id: SessionId, names: seq<string>, mungeMode: Option<int>, disk: Disk)
    requires Valid(s) && id in s.peers
    ensures WithinCap(s, HandleFileList(s, id, names, mungeMode, disk))
  {
    hide ActiveIds, WaitingIds, OpenIds, Recorded, BeginAndSend, Put, Unqueued;
    var m := Recorded(s, id, names, mungeMode);
    RecordedIsValid(s, id, names, mungeMode);
    RecordedActive(s, id, names, mungeMode);
    if ActiveCount(m) >= m.maxUploads {
      var t := Put(m, id, m.peers[id].(isQueued := true), [NotifyQueued]);
      QueuedEffect(m, id, t);
      SubsetSize(ActiveIds(t.peers), ActiveIds(s.peers));
    } else {
      SubsetSize(ActiveIds(Unqueued(m, id).peers), ActiveIds(m.peers) + {id});
      BeginAndSendEffect(Unqueued(m, id), id, disk);
    }
  }

  lemma RecordedIsValid(s: Server, id: SessionId, names: seq<string>, mungeMode: Option<int>)
    requires Valid(s) && id in s.peers
    ensures var m := Recorded(s, id, names, mungeMode);
      && Valid(m) && Valid(Unqueued(m, id)) && id in m.peers && id in m.sent
      && m.maxUploads == s.maxUploads && Unqueued(m, id).maxUploads == s.maxUploads && id in Unqueued(m, id).peers
  {
  }

  lemma StepStaysWithinCap(r: Run, e: Event)
    requires WellPaced(r)
    ensures WithinCap(r.server, Step(r, e).server)
  {
    hide ActiveIds, HandleFileList, OutputQueuesDrained, SessionDetached;
    match e
    case Accepted(id) =>
      if id !in r.lists {
        AcceptedIsNew(r, id);
        AcceptedHoldsNoSlot(r.server, id);
      }
    case Listed(id, names, mungeMode, disk) =>
      if id in r.server.peers {
        ListStaysWithinCap(r.server, id, names, mungeMode, disk);
      }
    case Drained(id, disk) =>
      if id in r.server.drains && r.server.drains[id] > 0 {
        DrainEffect(r.server, id, disk);
      }
    case Detached(id, disk) => DetachStaysWithinCap(r.server, id, disk);
    case Shared(_) =>
  }

  lemma StepKeepsPace(r: Run, e: Event)
    requires WellPaced(r)
    ensures WellPaced(Step(r, e))
  {
    match e
    case Accepted(id) =>
      if id !in r.lists {
        AcceptKeepsPace(r, id);
      }
    case Listed(id, names, mungeMode, disk) =>
      if id in r.server.peers && id in r.lists {
        ListKeepsPace(r, id, names, mungeMode, disk);
      }
    case Drained(id, disk) =>
      if id in r.server.drains && r.server.drains[id] > 0 {
        DrainEffect(r.server, id, disk);
      }
    case Detached(id, disk) => DetachKeepsPace(r, id, disk);
    case Shared(_) =>
  }

  lemma StepKeepsDriven(r: Run, e: Event)
    requires Valid(r.server) && Driven(r.server, {})
    ensures Driven(Step(r, e).server, {})
  {
    hide HandleFileList, OutputQueuesDrained, SessionDetached, SessionAccepted;
    match e
    case Accepted(id) => AcceptDriven(r.server, id);
    case Listed(id, names, mungeMode, disk) => ListDriven(r.server, id, names, mungeMode, disk);
    case Drained(id, disk) =>
      if id in r.server.drains && r.server.drains[id] > 0 {
        DrainProceeds(r.server, id, disk);
      }
    case Detached(id, disk) => DetachDriven(r.server, id, disk);
    case Shared(_) =>
  }

  lemma StepKeepsGood(r: Run, e: Event)
    requires Good(r)
    ensures Good(Step(r, e))
  {
    assert Valid(r.server);
    hide WellPaced, Step, ActiveIds, Driven;
    StepKeepsDriven(r, e);
    StepKeepsPace(r, e);
    StepStaysWithinCap(r, e);
  }

  lemma StepKeepsCap(r: Run, e: Event)
    requires Valid(r.server)
    ensures Step(r, e).server.maxUploads == r.server.maxUploads
  {
    match e
    case Accepted(_) =>
    case Listed(_, _, _, _) =>
    case Drained(_, _) =>
    case Detached(_, _) =>
    case Shared(_) =>
  }

  function Idle(maxUploads: nat): Run {
    Run(Server([], map[], map[], maxUploads, map[], map[]), map[])
  }

  lemma StepKeepsValid(r: Run, e: Event)
    requires Valid(r.server)
    ensures Valid(Step(r, e).server)
  {
    hide Valid, HandleFileList, SessionDetached, OutputQueuesDrained, SessionAccepted;
    if e.Shared? {
      SharingKeepsValid(r.server, e.files);
    }
  }

  lemma SharingKeepsValid(s: Server, files: map<string, SharedFile>)
    requires Valid(s)
    ensures Valid(s.(shared := files))
  {
  }

  ghost function After(maxUploads: nat, events: seq<Event>): (r: Run)
    ensures Valid(r.server)
  {
    if events == [] then Idle(maxUploads)
    else
      var last := |events| - 1;
      StepKeepsValid(After(maxUploads, events[..last]), events[last]);
      Step(After(maxUploads, events[..last]), events[last])
  }

  lemma {:induction false} RunKeepsGood(maxUploads: nat, events: seq<Event>)
    requires maxUploads >= 1
    ensures Good(After(maxUploads, events)) && After(maxUploads, events).server.maxUploads == maxUploads
  {
    if events == [] {
    } else {
      hide Good, Step;
      var last := |events| - 1;
      RunKeepsGood(maxUploads, events[..last]);
      StepKeepsGood(After(maxUploads, events[..last]), events[last]);
      StepKeepsCap(After(maxUploads, events[..last]), events[last]);
    }
  }

  /** Pacing, for every run: a session's outstanding drain notifications never exceed the
      file lists it has sent. A peer that asks once has at most one chunk on its way. */
  lemma {:induction false} NotificationsArePaced(maxUploads: nat, events: seq<Event>)
    requires maxUploads >= 1
    ensures var r := After(maxUploads, events);
      forall id | id in r.lists :: id in r.server.drains && r.server.drains[id] <= r.lists[id]
  {
    var r := After(maxUploads, events);
    RunKeepsGood(maxUploads, events);
    forall id | id in r.lists ensures id in r.server.drains && r.server.drains[id] <= r.lists[id] {
      assert Tokens(r.server, id) <= r.lists[id];
    }
  }

  // ----- Nobody stalls -----

  /** In every run, a peer that is not queued has a notification on its way, or no file
      open and none left to open. */
  lemma NobodyStalls(maxUploads: nat, events: seq<Event>, id: SessionId)
    requires maxUploads >= 1
    ensures var s := After(maxUploads, events).server;
      id in s.peers && !s.peers[id].isQueued ==>
        id in s.drains && (s.drains[id] > 0 || IsThrough(s.peers[id]))
  {
    hide After;
    RunKeepsGood(maxUploads, events);
  }

  /** In every run, a notification that arrives makes the server send its peer more if
      anything can still be sent, and, for a peer that is not queued, only then. */
  lemma NotificationsMoveOn(maxUploads: nat, events: seq<Event>, id: SessionId, disk: Disk)
    requires maxUploads >= 1
    ensures var s := After(maxUploads, events).server;
      id in s.peers && id in s.drains && s.drains[id] > 0 ==>
        var p, t := s.peers[id], OutputQueuesDrained(s, id, disk);
        && id in s.sent && id in t.sent
        && (IsLeft(p, disk) ==> s.sent[id] < t.sent[id])
        && (!IsLeft(p, disk) && !p.isQueued ==> t.sent[id] == s.sent[id])
  {
    hide After, OutputQueuesDrained, IsLeft;
    var s := After(maxUploads, events).server;
    RunKeepsGood(maxUploads, events);
    if id in s.peers && id in s.drains && s.drains[id] > 0 {
      DrainProceeds(s, id, disk);
    }
  }

  /** A session that is connected asks for munged chunks. */
  ghost predicate AsksForMunging(maxUploads: nat, events: seq<Event>, k: nat, id: SessionId)
    requires k < |events|
  {
    && id in After(maxUploads, events[..k]).server.peers && id in After(maxUploads, events[..k]).lists
    && events[k].Listed? && events[k].id == id && events[k].mungeMode == Some(MUNGE_MODE_XOR)
  }

  lemma StepKeepsModes(r: Run, e: Event, id: SessionId)
    requires Good(r) && id in Step(r, e).server.peers
    ensures var mode := Step(r, e).server.peers[id].mungeMode;
      if id !in r.server.peers then mode == MUNGE_MODE_NONE && id !in r.lists && !e.Listed?
      else if e.Listed? && e.id == id && id in r.lists && e.mungeMode == Some(MUNGE_MODE_XOR)
      then mode == MUNGE_MODE_XOR
      else mode == r.server.peers[id].mungeMode
  {
    hide HandleFileList, OutputQueuesDrained, SessionDetached;
    match e
    case Accepted(_) =>
    case Listed(x, names, mungeMode, disk) =>
      if x in r.server.peers {
        ListSetsMode(r.server, x, names, mungeMode, disk);
      }
    case Drained(x, disk) =>
      if x in r.server.drains && r.server.drains[x] > 0 {
        DrainProceeds(r.server, x, disk);
      }
    case Detached(x, disk) => DetachDriven(r.server, x, disk);
    case Shared(_) =>
  }

  ghost predicate EverAsksForMunging(maxUploads: nat, events: seq<Event>, id: SessionId) {
    exists k :: 0 <= k < |events| && AsksForMunging(maxUploads, events, k, id)
  }

  lemma EverAsksSnoc(maxUploads: nat, events: seq<Event>, id: SessionId)
    requires events != []
    ensures EverAsksForMunging(maxUploads, events, id) <==>
      (|| EverAsksForMunging(maxUploads, events[..|events| - 1], id)
       || AsksForMunging(maxUploads, events, |events| - 1, id))
  {
    hide After;
    var before := events[..|events| - 1];
    forall k | 0 <= k < |before|
      ensures AsksForMunging(maxUploads, before, k, id) <==> AsksForMunging(maxUploads, events, k, id)
    {
      assert before[..k] == events[..k] && before[k] == events[k];
    }
  }

  lemma AskersAreKnown(maxUploads: nat, events: seq<Event>, id: SessionId)
    requires EverAsksForMunging(maxUploads, events, id)
    ensures id in After(maxUploads, events).lists
  {
    var k :| 0 <= k < |events| && AsksForMunging(maxUploads, events, k, id);
    hide After;
    ListsStay(maxUploads, events, k);
  }

  /** In every run, a session's chunks are munged if it has asked for that in any of its
      lists, and only then. */
  lemma {:induction false} MungedIfAsked(maxUploads: nat, events: seq<Event>, id: SessionId)
    requires maxUploads >= 1
    ensures var s := After(maxUploads, events).server;
      id in s.peers ==>
        s.peers[id].mungeMode
        == if EverAsksForMunging(maxUploads, events, id) then MUNGE_MODE_XOR else MUNGE_MODE_NONE
  {
    if events != [] && id in After(maxUploads, events).server.peers {
      hide After, Step, Good, EverAsksForMunging;
      var before := events[..|events| - 1];
      var r := After(maxUploads, before);
      RunKeepsGood(maxUploads, before);
      LastStep(maxUploads, events);
      StepKeepsModes(r, events[|events| - 1], id);
      MungedIfAsked(maxUploads, before, id);
      EverAsksSnoc(maxUploads, events, id);
      if EverAsksForMunging(maxUploads, before, id) {
        AskersAreKnown(maxUploads, before, id);
      }
    }
  }

  lemma {:induction false} ListsStay(maxUploads: nat, events: seq<Event>, k: nat)
    requires k <= |events|
    ensures After(maxUploads, events[..k]).lists.Keys <= After(maxUploads, events).lists.Keys
  {
    if k < |events| {
      var last := |events| - 1;
      assert events[..last][..k] == events[..k];
      ListsStay(maxUploads, events[..last], k);
      LastStep(maxUploads, events);
    } else {
      assert events[..k] == events;
    }
  }

  lemma LastStep(maxUploads: nat, events: seq<Event>)
    requires events != []
    ensures Valid(After(maxUploads, events[..|events| - 1]).server)
    ensures After(maxUploads, events) == Step(After(maxUploads, events[..|events| - 1]), events[|events| - 1])
  {
  }

  /** In every run, the end of a peer's last file is an occasion to call somebody: with a
      slot vacant, the earliest-accepted waiter gets it. */
  lemma EndOfFilesCallsWaiter(maxUploads: nat, events: seq<Event>, id: SessionId, disk: Disk)
    requires maxUploads >= 1
    ensures var s := After(maxUploads, events).server;
      && id in s.peers && id in s.drains && s.drains[id] > 0
      && s.peers[id].currentFile.Some? && !IsLeft(s.peers[id], disk)
      && |ActiveIds(s.peers)| < maxUploads && WaitingIds(s.peers) != {} ==>
        exists k :: 0 <= k < |s.order| && s.order[k] in WaitingIds(s.peers)
          && (forall j | 0 <= j < k :: s.order[j] !in WaitingIds(s.peers))
          && s.order[k] in ActiveIds(OutputQueuesDrained(s, id, disk).peers)
  {
    hide After, IsLeft, OutputQueuesDrained;
    var s := After(maxUploads, events).server;
    RunKeepsGood(maxUploads, events);
    if id in s.peers && id in s.drains && s.drains[id] > 0 && s.peers[id].currentFile.Some?
       && !IsLeft(s.peers[id], disk) && ActiveCount(s) < maxUploads && WaitingIds(s.peers) != {} {
      WaiterCalled(s, id, disk);
    }
  }

  lemma WaiterCalled(s: Server, id: SessionId, disk: Disk)
    requires Valid(s) && id in s.peers && s.drains[id] > 0 && ActiveCount(s) < s.maxUploads
    requires s.peers[id].currentFile.Some? && !IsLeft(s.peers[id], disk) && WaitingIds(s.peers) != {}
    ensures var t := OutputQueuesDrained(s, id, disk);
      exists k :: 0 <= k < |s.order| && s.order[k] in WaitingIds(s.peers)
        && (forall j | 0 <= j < k :: s.order[j] !in WaitingIds(s.peers))
        && s.order[k] in ActiveIds(t.peers)
  {
    hide StartNextQueuedPeer, TokensBounded, OpenIds, FilesKept, SlotsGrow, SamePeers;
    var p := s.peers[id];
    NextBytesLeft(p.currentFile.value);
    BeginsIfAnyIsThere(p, disk);
    var taken := s.(drains := s.drains[id := s.drains[id] - 1]);
    var r := BeginFile(taken, id, disk);
    BeginFileEffect(taken, id, disk);
    StartNextEffect(r, disk);
    WaitersAreFound(r);
  }
}
