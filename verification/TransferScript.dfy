// The script of a session: everything the server will ever send to a peer that asked for
// some files, and the proof that the server's recursion only ever moves along it.

module TransferScript {

  import opened Prelude
  import opened ChunkIntegrity
  import opened TransferProtocol
  import opened UploadServer

  // ----- The script -----

  /** The chunks of a file from a position on. */
  function ChunkScript(f: OpenFile, mungeMode: int): (r: seq<Message>)
    ensures r == [] <==> NextBytes(f) == []
    decreases |f.contents| - f.position
  {
    if NextBytes(f) == [] then []
    else [ChunkMessage(NextBytes(f), mungeMode)] + ChunkScript(Advanced(f), mungeMode)
  }

  /** One file: a header and all its chunks, or nothing at all if it cannot be opened. */
  function FileScript(file: SharedFile, disk: Disk, mungeMode: int): seq<Message> {
    if file.absolutePath !in disk then []
    else [Header(file)] + ChunkScript(OpenFile(disk[file.absolutePath], 0), mungeMode)
  }

  function Script(files: seq<SharedFile>, disk: Disk, mungeMode: int): seq<Message> {
    if files == [] then []
    else FileScript(files[0], disk, mungeMode) + Script(files[1..], disk, mungeMode)
  }

  /** What is left to send, given where a peer's upload stands. */
  function Future(p: PeerUpload, disk: Disk): seq<Message>
    requires p.nextFileIndex <= |p.requestedFiles|
  {
    (if p.currentFile.Some? then ChunkScript(p.currentFile.value, p.mungeMode) else [])
    + Script(p.requestedFiles[p.nextFileIndex..], disk, p.mungeMode)
  }

  /** A session's messages without the notice that it has been put on the waiting list. */
  function Body(sent: seq<Message>): seq<Message> {
    if sent != [] && sent[0].NotifyQueued? then sent[1..] else sent
  }

  /** Sent so far plus still to send is the whole script, and a queued peer has not been
      begun. */
  predicate OnScript(sent: seq<Message>, p: PeerUpload, disk: Disk) {
    && p.nextFileIndex <= |p.requestedFiles|
    && Body(sent) + Future(p, disk) == Script(p.requestedFiles, disk, p.mungeMode)
    && (p.isQueued ==> p.currentFile.None?)
  }

  /** A peer that has not asked for anything yet. */
  predicate IsUnlisted(sent: seq<Message>, p: PeerUpload) {
    p == NEW_PEER && sent == []
  }

  ghost predicate Tidy(s: Server, disk: Disk) {
    && Valid(s)
    && forall id | id in s.peers ::
         IsUnlisted(s.sent[id], s.peers[id]) || OnScript(s.sent[id], s.peers[id], disk)
  }

  /** What a handler may do to the table as a whole: sessions only receive more, what they
      asked for stands, and sessions that have not asked or have left are not touched. */
  ghost predicate Extends(s: Server, r: Server) {
    && r.peers.Keys == s.peers.Keys && r.sent.Keys == s.sent.Keys && r.shared == s.shared
    && (forall id | id in s.sent :: s.sent[id] <= r.sent[id])
    && (forall id | id in s.sent && id !in s.peers :: r.sent[id] == s.sent[id])
    && (forall id | id in s.peers ::
          && r.peers[id].requestedFiles == s.peers[id].requestedFiles
          && r.peers[id].mungeMode == s.peers[id].mungeMode
          && (s.peers[id] == NEW_PEER ==> r.peers[id] == NEW_PEER))
    && (forall id | id in s.peers && id in s.sent && s.peers[id] == NEW_PEER :: r.sent[id] == s.sent[id])
  }

  // ----- The chunks of a file -----

  /** The bytes of the file that a chunk stands for. */
  function Decoded(m: Message): seq<Byte> {
    if m.FileData? && m.data.Some? then ApplyMunge(m.data.value, ModeOf(m.mungeMode)) else []
  }

  function AllDecoded(messages: seq<Message>): seq<Byte> {
    if messages == [] then [] else Decoded(messages[0]) + AllDecoded(messages[1..])
  }

  /** The chunks carry the file: decoded and put together they are its bytes, every chunk
      but the last is full, and none is empty. */
  lemma {:induction false} ChunksCarryFile(f: OpenFile, mungeMode: int)
    requires f.position <= |f.contents|
    ensures var chunks := ChunkScript(f, mungeMode);
      && AllDecoded(chunks) == f.contents[f.position..]
      && (forall i | 0 <= i < |chunks| :: 0 < |Decoded(chunks[i])| <= UPLOAD_CHUNK_SIZE)
      && (forall i | 0 <= i < |chunks| - 1 :: |Decoded(chunks[i])| == UPLOAD_CHUNK_SIZE)
    decreases |f.contents| - f.position
  {
    if NextBytes(f) != [] {
      var chunks, rest := ChunkScript(f, mungeMode), ChunkScript(Advanced(f), mungeMode);
      ChunkDecodes(NextBytes(f), mungeMode);
      ChunksCarryFile(Advanced(f), mungeMode);
      assert chunks[0] == ChunkMessage(NextBytes(f), mungeMode) && chunks[1..] == rest;
      hide ChunkMessage, Decoded;
      assert NextBytes(f) + f.contents[Advanced(f).position..] == f.contents[f.position..];
      assert forall i | 0 < i < |chunks| :: chunks[i] == rest[i - 1];
    }
  }

  lemma ChunkDecodes(bytes: seq<Byte>, mungeMode: int)
    ensures Decoded(ChunkMessage(bytes, mungeMode)) == bytes
  {
    ApplyMungeTwice(bytes, mungeMode);
  }

  // ----- One peer moves along its script -----

  predicate IsContent(messages: seq<Message>) {
    forall m | m in messages :: !m.NotifyQueued?
  }

  lemma BodyAppend(sent: seq<Message>, more: seq<Message>)
    requires IsContent(more)
    ensures Body(sent + more) == Body(sent) + more
  {
    if sent == [] {
      assert sent + more == more;
      if more != [] {
        assert more[0] in more;
      }
    } else if sent[0].NotifyQueued? {
      assert (sent + more)[1..] == sent[1..] + more;
    }
  }

  predicate AtFileEnd(p: PeerUpload) {
    p.currentFile.Some? ==> NextBytes(p.currentFile.value) == []
  }

  lemma Associates<T>(a: seq<T>, b: seq<T>, c: seq<T>)
    ensures (a + b) + c == a + (b + c)
  {
  }

  lemma FutureOfClosed(p: PeerUpload, disk: Disk)
    requires p.nextFileIndex <= |p.requestedFiles| && AtFileEnd(p)
    ensures Future(p, disk) == Script(p.requestedFiles[p.nextFileIndex..], disk, p.mungeMode)
  {
  }

  lemma ScriptFrom(files: seq<SharedFile>, i: nat, disk: Disk, mungeMode: int)
    requires i < |files|
    ensures Script(files[i..], disk, mungeMode)
         == FileScript(files[i], disk, mungeMode) + Script(files[i + 1..], disk, mungeMode)
  {
    assert files[i..][0] == files[i] && files[i..][1..] == files[i + 1..];
  }

  /** Moving to the next file, however many have vanished, sends exactly the next header
      of the script. */
  lemma {:induction false} BeginMovesAlong(p: PeerUpload, disk: Disk)
    requires p.nextFileIndex <= |p.requestedFiles| && AtFileEnd(p)
    ensures var b := BeginNextFile(p, disk);
      && b.peer.nextFileIndex <= |b.peer.requestedFiles|
      && b.header + Future(b.peer, disk) == Future(p, disk)
      && IsContent(b.header)
    decreases Remaining(p)
  {
    FutureOfClosed(p, disk);
    var closed := p.(currentFile := None);
    FutureOfClosed(closed, disk);
    if p.nextFileIndex < |p.requestedFiles| {
      var file := p.requestedFiles[p.nextFileIndex];
      var moved := closed.(nextFileIndex := p.nextFileIndex + 1);
      ScriptFrom(p.requestedFiles, p.nextFileIndex, disk, p.mungeMode);
      FutureOfClosed(moved, disk);
      if file.absolutePath !in disk {
        BeginMovesAlong(moved, disk);
      } else {
        var chunks := ChunkScript(OpenFile(disk[file.absolutePath], 0), p.mungeMode);
        Associates([Header(file)], chunks, Script(p.requestedFiles[moved.nextFileIndex..], disk, p.mungeMode));
      }
    }
  }

  lemma BeginStaysOnScript(sent: seq<Message>, p: PeerUpload, disk: Disk)
    requires OnScript(sent, p, disk) && AtFileEnd(p) && !p.isQueued
    ensures var b := BeginNextFile(p, disk); OnScript(sent + b.header, b.peer, disk)
  {
    var b := BeginNextFile(p, disk);
    BeginMovesAlong(p, disk);
    BodyAppend(sent, b.header);
    Associates(Body(sent), b.header, Future(b.peer, disk));
  }

  lemma ChunkStaysOnScript(sent: seq<Message>, p: PeerUpload, disk: Disk)
    requires OnScript(sent, p, disk) && p.currentFile.Some? && NextBytes(p.currentFile.value) != []
    ensures var f := p.currentFile.value;
      OnScript(sent + [ChunkMessage(NextBytes(f), p.mungeMode)], p.(currentFile := Some(Advanced(f))), disk)
  {
    var f := p.currentFile.value;
    var chunk := ChunkMessage(NextBytes(f), p.mungeMode);
    var q := p.(currentFile := Some(Advanced(f)));
    BodyAppend(sent, [chunk]);
    ChunkMovesAlong(p, disk);
    Associates(Body(sent), [chunk], Future(q, disk));
  }

  lemma ChunkMovesAlong(p: PeerUpload, disk: Disk)
    requires p.nextFileIndex <= |p.requestedFiles| && p.currentFile.Some?
    requires NextBytes(p.currentFile.value) != []
    ensures var f := p.currentFile.value;
      [ChunkMessage(NextBytes(f), p.mungeMode)] + Future(p.(currentFile := Some(Advanced(f))), disk)
      == Future(p, disk)
  {
    var f := p.currentFile.value;
    Associates([ChunkMessage(NextBytes(f), p.mungeMode)], ChunkScript(Advanced(f), p.mungeMode),
               Script(p.requestedFiles[p.nextFileIndex..], disk, p.mungeMode));
  }

  // ----- The server moves every peer along its own script -----

  lemma BeginFileTidy(s: Server, id: SessionId, disk: Disk)
    requires Tidy(s, disk) && id in s.peers && s.peers[id] != NEW_PEER
    requires AtFileEnd(s.peers[id]) && !s.peers[id].isQueued
    ensures Tidy(BeginFile(s, id, disk), disk) && Extends(s, BeginFile(s, id, disk))
    ensures BeginFile(s, id, disk).peers[id] == BeginNextFile(s.peers[id], disk).peer
  {
    hide OnScript, BeginNextFile;
    BeginStaysOnScript(s.sent[id], s.peers[id], disk);
  }

  lemma SendChunkTidy(s: Server, id: SessionId, disk: Disk)
    requires Tidy(s, disk) && id in s.peers && s.peers[id].currentFile.Some?
    requires NextBytes(s.peers[id].currentFile.value) != []
    ensures Tidy(SendChunk(s, id), disk) && Extends(s, SendChunk(s, id))
  {
    hide OnScript, NextBytes, ChunkMessage;
    ChunkStaysOnScript(s.sent[id], s.peers[id], disk);
  }

  lemma ExtendsChain(a: Server, b: Server, c: Server)
    requires Extends(a, b) && Extends(b, c)
    ensures Extends(a, c)
  {
  }

  lemma EndOfFileTidy(s: Server, id: SessionId, disk: Disk)
    requires Tidy(s, disk) && id in s.peers && s.peers[id].currentFile.Some?
    requires NextBytes(s.peers[id].currentFile.value) == []
    ensures var r := BeginFile(s, id, disk);
      Tidy(r, disk) && Extends(s, r) && WaitingIds(r.peers) == WaitingIds(s.peers)
  {
    BeginFileTidy(s, id, disk);
  }

  lemma {:induction false} SendNextTidy(s: Server, id: SessionId, disk: Disk)
    requires Tidy(s, disk) && id in s.peers
    ensures Tidy(SendNextChunk(s, id, disk), disk) && Extends(s, SendNextChunk(s, id, disk))
    decreases WaitingIds(s.peers), Remaining(s.peers[id]) + 1
  {
    var p := s.peers[id];
    if p.currentFile.None? {
    } else if NextBytes(p.currentFile.value) != [] {
      SendChunkTidy(s, id, disk);
    } else {
      var r := BeginFile(s, id, disk);
      EndOfFileTidy(s, id, disk);
      if Begins(s, id, disk) {
        SendNextTidy(r, id, disk);
        ExtendsChain(s, r, SendNextChunk(r, id, disk));
      } else {
        StartNextTidy(r, disk);
        ExtendsChain(s, r, StartNextQueuedPeer(r, disk));
      }
    }
  }

  lemma UnqueueTidy(s: Server, id: SessionId, disk: Disk)
    requires Tidy(s, disk) && id in s.peers && s.peers[id].isQueued
    ensures Tidy(Unqueued(s, id), disk) && Extends(s, Unqueued(s, id)) && AtFileEnd(Unqueued(s, id).peers[id])
  {
    var p := s.peers[id];
    assert Future(p.(isQueued := false), disk) == Future(p, disk);
  }

  lemma BeginAndSendTidy(s: Server, id: SessionId, disk: Disk)
    requires Tidy(s, disk) && id in s.peers && s.peers[id] != NEW_PEER
    requires AtFileEnd(s.peers[id]) && !s.peers[id].isQueued
    ensures Tidy(BeginAndSend(s, id, disk), disk) && Extends(s, BeginAndSend(s, id, disk))
    decreases WaitingIds(s.peers), Remaining(s.peers[id]) + 2
  {
    var r := BeginFile(s, id, disk);
    BeginFileTidy(s, id, disk);
    assert WaitingIds(r.peers) == WaitingIds(s.peers);
    if Begins(s, id, disk) {
      SendNextTidy(r, id, disk);
      ExtendsChain(s, r, SendNextChunk(r, id, disk));
    }
  }

  lemma TidyIsValid(s: Server, disk: Disk)
    requires Tidy(s, disk)
    ensures Valid(s) && Extends(s, s)
  {
  }

  lemma {:induction false} StartNextTidy(s: Server, disk: Disk)
    requires Tidy(s, disk)
    ensures Tidy(StartNextQueuedPeer(s, disk), disk) && Extends(s, StartNextQueuedPeer(s, disk))
    decreases WaitingIds(s.peers), 0
  {
    hide Tidy, Extends, BeginAndSend;
    TidyIsValid(s, disk);
    var next := FirstWaiting(s.order, s.peers);
    if ActiveCount(s) < s.maxUploads && next.Some? {
      var id := next.value;
      var freed := Unqueued(s, id);
      UnqueueTidy(s, id, disk);
      TidyIsValid(freed, disk);
      assert WaitingIds(freed.peers) == WaitingIds(s.peers) - {id};
      BeginAndSendTidy(freed, id, disk);
      ExtendsChain(s, freed, BeginAndSend(freed, id, disk));
    }
  }

  // ----- The handlers -----

  lemma DrainTidy(s: Server, id: SessionId, disk: Disk)
    requires Tidy(s, disk) && id in s.drains && s.drains[id] > 0
    requires id in s.peers ==> s.peers[id] != NEW_PEER && !s.peers[id].isQueued
    ensures Tidy(OutputQueuesDrained(s, id, disk), disk) && Extends(s, OutputQueuesDrained(s, id, disk))
  {
    var taken := s.(drains := s.drains[id := s.drains[id] - 1]);
    assert Tidy(taken, disk) && Extends(s, taken);
    if id in s.peers {
      if s.peers[id].currentFile.Some? {
        SendNextTidy(taken, id, disk);
      } else {
        BeginAndSendTidy(taken, id, disk);
      }
      ExtendsChain(s, taken, OutputQueuesDrained(s, id, disk));
    }
  }

  lemma DetachTidy(s: Server, id: SessionId, disk: Disk)
    requires Tidy(s, disk)
    ensures var left := if id in s.peers then Removed(s, id) else s;
      && Tidy(SessionDetached(s, id, disk), disk)
      && Extends(left, SessionDetached(s, id, disk))
      && left.sent == s.sent && left.peers == s.peers - {id} && left.shared == s.shared
  {
    hide Tidy, Extends, StartNextQueuedPeer, Without;
    TidyIsValid(s, disk);
    RemovedTidy(s, id, disk);
    var left := if id in s.peers then Removed(s, id) else s;
    StartNextTidy(left, disk);
  }

  lemma RemovedTidy(s: Server, id: SessionId, disk: Disk)
    requires Tidy(s, disk)
    ensures id in s.peers ==> Tidy(Removed(s, id), disk)
    ensures id !in s.peers ==> s.peers == s.peers - {id}
  {
    WithoutDistinct(s.order, id);
  }

  lemma ScriptBegins(p: PeerUpload, disk: Disk)
    requires p.nextFileIndex == 0 && p.currentFile.None?
    ensures OnScript([], p, disk) && OnScript([NotifyQueued], p, disk)
  {
    assert p.requestedFiles[0..] == p.requestedFiles;
    FutureOfClosed(p, disk);
    assert Body([NotifyQueued]) == [];
  }

  lemma RecordedTidy(s: Server, id: SessionId, names: seq<string>, disk: Disk)
    requires Tidy(s, disk) && id in s.peers && IsUnlisted(s.sent[id], s.peers[id])
    ensures var m := Recorded(s, id, names, Some(MUNGE_MODE_XOR));
      && Tidy(m, disk) && OnScript(m.sent[id], m.peers[id], disk)
      && m.peers[id] == NEW_PEER.(requestedFiles := Resolve(names, s.shared), mungeMode := MUNGE_MODE_XOR)
  {
    ScriptBegins(Recorded(s, id, names, Some(MUNGE_MODE_XOR)).peers[id], disk);
  }

  lemma NoticeTidy(m: Server, id: SessionId, disk: Disk)
    requires Tidy(m, disk) && id in m.peers && m.sent[id] == [] && m.peers[id] != NEW_PEER
    requires m.peers[id].nextFileIndex == 0 && m.peers[id].currentFile.None?
    ensures var r := Put(m, id, m.peers[id].(isQueued := true), [NotifyQueued]);
      Tidy(r, disk) && Extends(m, r) && OnScript(r.sent[id], r.peers[id], disk)
  {
    ScriptBegins(m.peers[id].(isQueued := true), disk);
    assert m.sent[id] + [NotifyQueued] == [NotifyQueued];
  }

  /** The first file list puts a peer at the start of its script; it is then queued with
      the notice, or served at once. */
  lemma FirstListTidy(s: Server, id: SessionId, names: seq<string>, disk: Disk)
    requires Tidy(s, disk) && id in s.peers && IsUnlisted(s.sent[id], s.peers[id])
    ensures var m := Recorded(s, id, names, Some(MUNGE_MODE_XOR));
      var r := HandleFileList(s, id, names, Some(MUNGE_MODE_XOR), disk);
      && Tidy(r, disk) && Extends(m, r)
      && m.peers[id] == NEW_PEER.(requestedFiles := Resolve(names, s.shared), mungeMode := MUNGE_MODE_XOR)
  {
    hide Tidy, Extends, BeginAndSend, Resolve, OnScript, ActiveIds;
    var m := Recorded(s, id, names, Some(MUNGE_MODE_XOR));
    TidyIsValid(s, disk);
    RecordedTidy(s, id, names, disk);
    TidyIsValid(m, disk);
    if ActiveCount(m) >= m.maxUploads {
      NoticeTidy(m, id, disk);
    } else {
      assert m.peers[id := m.peers[id].(isQueued := false)] == m.peers;
      BeginAndSendTidy(m, id, disk);
    }
  }
}
