// Why a served peer never stalls: as long as there is anything left for it, a drain
// notification is on its way, and every notification that arrives moves it on.

module UploadProgress {

  import opened Prelude
  import opened TransferProtocol
  import opened UploadServer

  /** Something can still be sent: bytes of the open file, or a requested file that has not
      vanished. */
  predicate IsLeft(p: PeerUpload, disk: Disk) {
    || (p.currentFile.Some? && p.currentFile.value.position < |p.currentFile.value.contents|)
    || exists i :: p.nextFileIndex <= i < |p.requestedFiles| && p.requestedFiles[i].absolutePath in disk
  }

  /** No file is open, and every requested one has had its turn. */
  predicate IsThrough(p: PeerUpload) {
    p.currentFile.None? && p.nextFileIndex >= |p.requestedFiles|
  }

  /** Every peer that is not queued has a notification on its way, or is through. */
  ghost predicate Driven(s: Server, except: set<SessionId>) {
    forall id | id in s.peers && id in s.drains && id !in except && !s.peers[id].isQueued ::
      s.drains[id] > 0 || IsThrough(s.peers[id])
  }

  /** The next file that has not vanished is begun if there is one, and otherwise the peer
      is through. */
  lemma {:induction false} BeginsIfAnyIsThere(p: PeerUpload, disk: Disk)
    ensures var b := BeginNextFile(p, disk);
      && (b.started <==>
            exists i :: p.nextFileIndex <= i < |p.requestedFiles| && p.requestedFiles[i].absolutePath in disk)
      && (!b.started ==> IsThrough(b.peer))
      && (b.started <==> b.header != [])
    decreases Remaining(p)
  {
    if p.nextFileIndex < |p.requestedFiles| && p.requestedFiles[p.nextFileIndex].absolutePath !in disk {
      var moved := p.(currentFile := None, nextFileIndex := p.nextFileIndex + 1);
      BeginsIfAnyIsThere(moved, disk);
    }
  }

  lemma NextBytesLeft(f: OpenFile)
    ensures NextBytes(f) != [] <==> f.position < |f.contents|
  {
  }

  /** Sessions only receive more; those that are neither queued nor among the moved ones
      receive nothing, nobody is put on the waiting list, and munge modes stay. */
  ghost predicate Proceeds(s: Server, r: Server, moved: set<SessionId>) {
    && r.peers.Keys == s.peers.Keys && r.sent.Keys == s.sent.Keys && r.drains.Keys == s.drains.Keys
    && (forall x | x in s.sent :: s.sent[x] <= r.sent[x])
    && (forall x | x in s.peers :: r.peers[x].mungeMode == s.peers[x].mungeMode)
    && (forall x | x in s.peers && r.peers[x].isQueued :: s.peers[x].isQueued)
    && (forall x | x in s.peers && x in s.sent && x !in moved && !s.peers[x].isQueued :: r.sent[x] == s.sent[x])
  }

  lemma ProceedsOn(a: Server, b: Server, c: Server, moved: set<SessionId>)
    requires Proceeds(a, b, moved) && Proceeds(b, c, moved)
    ensures Proceeds(a, c, moved)
  {
  }

  lemma PutProceeds(s: Server, id: SessionId, p: PeerUpload, messages: seq<Message>)
    requires Valid(s) && id in s.peers && p.isQueued == s.peers[id].isQueued
    requires p.requestedFiles == s.peers[id].requestedFiles && p.mungeMode == s.peers[id].mungeMode
    ensures var r := Put(s, id, p, messages);
      && Valid(r) && Proceeds(s, r, {id}) && WaitingIds(r.peers) == WaitingIds(s.peers)
      && (Driven(s, {id}) ==> Driven(r, {id}) && (IsThrough(p) ==> Driven(r, {})))
  {
  }

  lemma BeginProceeds(s: Server, id: SessionId, disk: Disk)
    requires Valid(s) && id in s.peers && Driven(s, {id})
    ensures var r := BeginFile(s, id, disk);
      && Valid(r) && Proceeds(s, r, {id}) && Driven(r, {id}) && WaitingIds(r.peers) == WaitingIds(s.peers)
      && (if Begins(s, id, disk) then s.sent[id] < r.sent[id] && r.peers[id].currentFile.Some?
          else r.sent[id] == s.sent[id] && Driven(r, {}))
  {
    hide BeginNextFile, Proceeds, Driven, Valid, WaitingIds, IsThrough;
    BeginsIfAnyIsThere(s.peers[id], disk);
    var b := BeginNextFile(s.peers[id], disk);
    PutProceeds(s, id, b.peer, b.header);
    assert s.sent[id] + [] == s.sent[id];
  }

  lemma ChunkProceeds(s: Server, id: SessionId)
    requires Valid(s) && id in s.peers && s.peers[id].currentFile.Some? && Driven(s, {id})
    ensures var r := SendChunk(s, id);
      Valid(r) && Proceeds(s, r, {id}) && Driven(r, {}) && s.sent[id] < r.sent[id]
  {
    hide ChunkMessage, NextBytes;
  }

  /** With a file open, sending on leaves nobody stalled, and something goes out if there
      is anything. */
  lemma {:induction false} SendNextProceeds(s: Server, id: SessionId, disk: Disk)
    requires Valid(s) && id in s.peers && s.peers[id].currentFile.Some? && Driven(s, {id})
    ensures var r := SendNextChunk(s, id, disk);
      && Proceeds(s, r, {id}) && Driven(r, {})
      && (IsLeft(s.peers[id], disk) ==> s.sent[id] < r.sent[id])
      && (!IsLeft(s.peers[id], disk) && !s.peers[id].isQueued ==> r.sent[id] == s.sent[id])
    decreases WaitingIds(s.peers), Remaining(s.peers[id]) + 1
  {
    hide Driven, ChunkMessage, BeginNextFile;
    var p := s.peers[id];
    NextBytesLeft(p.currentFile.value);
    BeginsIfAnyIsThere(p, disk);
    if NextBytes(p.currentFile.value) != [] {
      ChunkProceeds(s, id);
    } else {
      var r := BeginFile(s, id, disk);
      BeginProceeds(s, id, disk);
      if Begins(s, id, disk) {
        SendNextProceeds(r, id, disk);
        ProceedsOn(s, r, SendNextChunk(r, id, disk), {id});
      } else {
        StartNextProceeds(r, disk);
        ProceedsOn(s, r, StartNextQueuedPeer(r, disk), {id});
      }
    }
  }

  lemma BeginAndSendProceeds(s: Server, id: SessionId, disk: Disk)
    requires Valid(s) && id in s.peers && Driven(s, {id})
    ensures var r := BeginAndSend(s, id, disk);
      && Proceeds(s, r, {id}) && Driven(r, {})
      && (if Begins(s, id, disk) then s.sent[id] < r.sent[id] else r.sent[id] == s.sent[id])
    decreases WaitingIds(s.peers), Remaining(s.peers[id]) + 2
  {
    hide Driven, BeginNextFile;
    var begun := BeginFile(s, id, disk);
    BeginProceeds(s, id, disk);
    if Begins(s, id, disk) {
      SendNextProceeds(begun, id, disk);
      ProceedsOn(s, begun, SendNextChunk(begun, id, disk), {id});
    }
  }

  lemma {:induction false} StartNextProceeds(s: Server, disk: Disk)
    requires Valid(s) && Driven(s, {})
    ensures Proceeds(s, StartNextQueuedPeer(s, disk), {}) && Driven(StartNextQueuedPeer(s, disk), {})
    decreases WaitingIds(s.peers), 0
  {
    hide BeginAndSend, FirstWaiting, ActiveIds, Proceeds, Driven;
    var next := FirstWaiting(s.order, s.peers);
    if ActiveCount(s) < s.maxUploads && next.Some? {
      var freed := Unqueued(s, next.value);
      FreedDriven(s, next.value);
      BeginAndSendProceeds(freed, next.value, disk);
      FreedProceeds(s, next.value, BeginAndSend(freed, next.value, disk));
    } else {
      NothingProceeds(s);
    }
  }

  lemma NothingProceeds(s: Server)
    requires Valid(s)
    ensures Proceeds(s, s, {})
  {
  }

  lemma FreedDriven(s: Server, id: SessionId)
    requires Valid(s) && id in s.peers && IsWaiting(s.peers[id]) && Driven(s, {})
    ensures var freed := Unqueued(s, id);
      Valid(freed) && id in freed.peers && Driven(freed, {id}) && WaitingIds(freed.peers) == WaitingIds(s.peers) - {id}
  {
  }

  lemma FreedProceeds(s: Server, id: SessionId, r: Server)
    requires Valid(s) && id in s.peers && s.peers[id].isQueued && Proceeds(Unqueued(s, id), r, {id})
    ensures Proceeds(s, r, {})
  {
  }

  // ----- The handlers -----

  ghost predicate ModesKept(s: Server, t: Server) {
    forall x | x in t.peers :: x in s.peers && t.peers[x].mungeMode == s.peers[x].mungeMode
  }

  /** A notification sends something exactly if anything is left, and stalls nobody. */
  lemma DrainProceeds(s: Server, id: SessionId, disk: Disk)
    requires Valid(s) && Driven(s, {}) && id in s.drains && s.drains[id] > 0
    ensures Driven(OutputQueuesDrained(s, id, disk), {}) && ModesKept(s, OutputQueuesDrained(s, id, disk))
    ensures id in s.peers ==>
      var p, t := s.peers[id], OutputQueuesDrained(s, id, disk);
      && id in t.sent
      && (IsLeft(p, disk) ==> s.sent[id] < t.sent[id])
      && (!IsLeft(p, disk) && !p.isQueued ==> t.sent[id] == s.sent[id])
  {
    hide SendNextChunk, BeginAndSend, Driven, IsLeft, Begins;
    TakenDriven(s, id);
    if id in s.peers {
      var taken := s.(drains := s.drains[id := s.drains[id] - 1]);
      if s.peers[id].currentFile.Some? {
        SendNextProceeds(taken, id, disk);
      } else {
        BeginAndSendProceeds(taken, id, disk);
        BeginsIfLeft(taken, id, disk);
      }
    }
  }

  lemma TakenDriven(s: Server, id: SessionId)
    requires Driven(s, {}) && id in s.drains && s.drains[id] > 0
    ensures var taken := s.(drains := s.drains[id := s.drains[id] - 1]);
      Driven(taken, {id}) && (id !in s.peers ==> Driven(taken, {}))
  {
  }

  lemma BeginsIfLeft(s: Server, id: SessionId, disk: Disk)
    requires id in s.peers && s.peers[id].currentFile.None?
    ensures Begins(s, id, disk) <==> IsLeft(s.peers[id], disk)
  {
    BeginsIfAnyIsThere(s.peers[id], disk);
  }

  lemma ListProceeds(s: Server, id: SessionId, names: seq<string>, mungeMode: Option<int>, disk: Disk)
    requires Valid(s) && Driven(s, {}) && id in s.peers
    requires ActiveCount(Recorded(s, id, names, mungeMode)) < s.maxUploads
    ensures var u := Unqueued(Recorded(s, id, names, mungeMode), id);
      var t := HandleFileList(s, id, names, mungeMode, disk);
      Proceeds(u, t, {id}) && Driven(t, {})
  {
    hide BeginAndSend, Resolve, ActiveIds, Proceeds;
    var u := Unqueued(Recorded(s, id, names, mungeMode), id);
    assert Driven(u, {id});
    BeginAndSendProceeds(u, id, disk);
  }

  lemma ListDriven(s: Server, id: SessionId, names: seq<string>, mungeMode: Option<int>, disk: Disk)
    requires Valid(s) && Driven(s, {})
    ensures Driven(HandleFileList(s, id, names, mungeMode, disk), {})
  {
    hide BeginAndSend, Resolve, ActiveIds, Proceeds;
    if id in s.peers && ActiveCount(Recorded(s, id, names, mungeMode)) < s.maxUploads {
      ListProceeds(s, id, names, mungeMode, disk);
    }
  }

  /** A list that asks for munging sets the mode of its sender, and nothing else does. */
  lemma ListSetsMode(s: Server, id: SessionId, names: seq<string>, mungeMode: Option<int>, disk: Disk)
    requires Valid(s) && Driven(s, {}) && id in s.peers
    ensures var t := HandleFileList(s, id, names, mungeMode, disk);
      && t.peers.Keys == s.peers.Keys
      && forall x | x in t.peers ::
           t.peers[x].mungeMode == if x == id && mungeMode == Some(MUNGE_MODE_XOR) then MUNGE_MODE_XOR
                                   else s.peers[x].mungeMode
  {
    hide BeginAndSend, Resolve, ActiveIds, Driven;
    if ActiveCount(Recorded(s, id, names, mungeMode)) < s.maxUploads {
      ListProceeds(s, id, names, mungeMode, disk);
    }
  }

  lemma DetachDriven(s: Server, id: SessionId, disk: Disk)
    requires Valid(s) && Driven(s, {})
    ensures Driven(SessionDetached(s, id, disk), {}) && ModesKept(s, SessionDetached(s, id, disk))
  {
    hide StartNextQueuedPeer;
    WithoutDistinct(s.order, id);
    StartNextProceeds(if id in s.peers then Removed(s, id) else s, disk);
  }

  lemma AcceptDriven(s: Server, id: SessionId)
    requires Valid(s) && Driven(s, {})
    ensures Driven(SessionAccepted(s, id), {})
  {
  }
}
