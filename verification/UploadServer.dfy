// The upload side of peer-to-peer transfers: one server that multiplexes every peer
// downloading from us. The functions give each handler on values; class
// FileUploadServer runs the handlers step by step, with the same mutual recursion.

module UploadServer {

  import opened Prelude
  import opened ChunkIntegrity
  import opened TransferProtocol

  type SessionId = string

  /** One file on offer. absolutePath is where it lives, for serving it later. */
  datatype SharedFile = SharedFile(fileName: string, relativePath: string, absolutePath: string, fileSize: int)

  /** An open FILE*: it keeps reading the file it opened, even if the name vanishes. */
  datatype OpenFile = OpenFile(contents: seq<Byte>, position: nat)

  datatype PeerUpload = PeerUpload(
    requestedFiles: seq<SharedFile>,
    currentFile: Option<OpenFile>,
    mungeMode: int,
    nextFileIndex: nat,
    isQueued: bool)

  type Disk = map<string, seq<Byte>>

  /** The peers in the order they were accepted, and the two things the transceiver holds
      per session: everything sent to it, and its drain notifications not yet delivered. */
  datatype Server = Server(
    order: seq<SessionId>,
    peers: map<SessionId, PeerUpload>,
    shared: map<string, SharedFile>,
    maxUploads: nat,
    sent: map<SessionId, seq<Message>>,
    drains: map<SessionId, nat>)

  const NEW_PEER: PeerUpload := PeerUpload([], None, MUNGE_MODE_NONE, 0, false)

  ghost predicate Valid(s: Server) {
    && Distinct(s.order)
    && (forall id :: id in s.order <==> id in s.peers)
    && s.peers.Keys <= s.sent.Keys
    && s.peers.Keys <= s.drains.Keys
  }

  predicate IsActive(p: PeerUpload) { !p.isQueued && p.requestedFiles != [] }

  predicate IsWaiting(p: PeerUpload) { p.isQueued && p.requestedFiles != [] }

  function ActiveIds(peers: map<SessionId, PeerUpload>): set<SessionId> {
    set id | id in peers && IsActive(peers[id])
  }

  function WaitingIds(peers: map<SessionId, PeerUpload>): set<SessionId> {
    set id | id in peers && IsWaiting(peers[id])
  }

  /** _CountActiveUploads */
  function ActiveCount(s: Server): nat { |ActiveIds(s.peers)| }

  /** The waiting peer accepted earliest. */
  function FirstWaiting(order: seq<SessionId>, peers: map<SessionId, PeerUpload>): (r: Option<SessionId>)
    requires forall id | id in order :: id in peers
    ensures r.None? ==> forall id | id in order :: !IsWaiting(peers[id])
    ensures r.Some? ==> exists k ::
      (&& 0 <= k < |order| && order[k] == r.value && IsWaiting(peers[r.value])
       && forall j | 0 <= j < k :: !IsWaiting(peers[order[j]]))
  {
    if order == [] then None
    else if IsWaiting(peers[order[0]]) then Some(order[0])
    else
      var rest := FirstWaiting(order[1..], peers);
      assert rest.Some? ==> forall k | 0 <= k < |order| - 1 :: order[1..][k] == order[k + 1];
      rest
  }

  lemma FirstWaitingStep(order: seq<SessionId>, peers: map<SessionId, PeerUpload>, i: nat)
    requires i <= |order| && forall id | id in order :: id in peers
    ensures i < |order| ==>
      (FirstWaiting(order[i..], peers)
       == if IsWaiting(peers[order[i]]) then Some(order[i]) else FirstWaiting(order[i + 1..], peers))
    ensures i == |order| ==> FirstWaiting(order[i..], peers) == None
  {
    if i < |order| {
      assert order[i..][0] == order[i] && order[i..][1..] == order[i + 1..];
    }
  }

  // ----- One peer moves through its files -----

  function Header(f: SharedFile): Message {
    FileHeader(Some(f.fileName), Some(f.fileSize), f.relativePath)
  }

  datatype Begun = Begun(peer: PeerUpload, started: bool, header: seq<Message>)

  function Remaining(p: PeerUpload): nat {
    if p.nextFileIndex < |p.requestedFiles| then |p.requestedFiles| - p.nextFileIndex else 0
  }

  /** _BeginNextFile: close the current file and open the next one that still exists. */
  function BeginNextFile(p: PeerUpload, disk: Disk): (b: Begun)
    ensures b.started ==> Remaining(b.peer) < Remaining(p)
    ensures b.started <==> b.peer.currentFile.Some?
    ensures b.peer.requestedFiles == p.requestedFiles && b.peer.isQueued == p.isQueued
    ensures b.peer.mungeMode == p.mungeMode
    decreases Remaining(p)
  {
    var closed := p.(currentFile := None);
    if p.nextFileIndex >= |p.requestedFiles| then Begun(closed, false, [])
    else
      var file := p.requestedFiles[p.nextFileIndex];
      var moved := closed.(nextFileIndex := p.nextFileIndex + 1);
      if file.absolutePath !in disk then BeginNextFile(moved, disk)
      else Begun(moved.(currentFile := Some(OpenFile(disk[file.absolutePath], 0))), true, [Header(file)])
  }

  /** The bytes fread() returns next; empty at the end of the file. */
  function NextBytes(f: OpenFile): seq<Byte> {
    if f.position >= |f.contents| then []
    else if f.position + UPLOAD_CHUNK_SIZE <= |f.contents|
    then f.contents[f.position..f.position + UPLOAD_CHUNK_SIZE]
    else f.contents[f.position..]
  }

  /** A chunk as it goes on the wire: munged first, then summed. */
  function ChunkMessage(bytes: seq<Byte>, mungeMode: int): Message {
    var wire := ApplyMunge(bytes, mungeMode);
    FileData(Some(wire), Some(ToInt32(Checksum(wire))), Some(mungeMode))
  }

  // ----- The server -----

  function Put(s: Server, id: SessionId, p: PeerUpload, messages: seq<Message>): Server
    requires id in s.peers && id in s.sent
  {
    s.(peers := s.peers[id := p], sent := s.sent[id := s.sent[id] + messages])
  }

  function Advanced(f: OpenFile): OpenFile {
    f.(position := f.position + |NextBytes(f)|)
  }

  function SendChunk(s: Server, id: SessionId): Server
    requires id in s.peers && id in s.sent && id in s.drains && s.peers[id].currentFile.Some?
  {
    var p := s.peers[id];
    var f := p.currentFile.value;
    Put(s, id, p.(currentFile := Some(Advanced(f))), [ChunkMessage(NextBytes(f), p.mungeMode)])
      .(drains := s.drains[id := s.drains[id] + 1])
  }

  function BeginFile(s: Server, id: SessionId, disk: Disk): Server
    requires id in s.peers && id in s.sent
  {
    var b := BeginNextFile(s.peers[id], disk);
    Put(s, id, b.peer, b.header)
  }

  predicate Begins(s: Server, id: SessionId, disk: Disk)
    requires id in s.peers
  {
    BeginNextFile(s.peers[id], disk).started
  }

  /** _SendNextChunk. With _StartNextQueuedPeer it recurs until a chunk has gone out or
      nothing is left; the waiting peers, then this peer's remaining files, run out. */
  ghost function SendNextChunk(s: Server, id: SessionId, disk: Disk): (r: Server)
    requires Valid(s) && id in s.peers
    ensures Valid(r) && r.order == s.order && r.shared == s.shared && r.maxUploads == s.maxUploads
    decreases WaitingIds(s.peers), Remaining(s.peers[id]) + 1
  {
    var p := s.peers[id];
    if p.currentFile.None? then s
    else if NextBytes(p.currentFile.value) != [] then SendChunk(s, id)
    else
      var r := BeginFile(s, id, disk);
      assert WaitingIds(r.peers) == WaitingIds(s.peers);
      if Begins(s, id, disk) then SendNextChunk(r, id, disk) else StartNextQueuedPeer(r, disk)
  }

  /** _StartNextQueuedPeer */
  ghost function StartNextQueuedPeer(s: Server, disk: Disk): (r: Server)
    requires Valid(s)
    ensures Valid(r) && r.order == s.order && r.shared == s.shared && r.maxUploads == s.maxUploads
    decreases WaitingIds(s.peers), 0
  {
    var next := FirstWaiting(s.order, s.peers);
    if ActiveCount(s) >= s.maxUploads || next.None? then s
    else
      var id := next.value;
      assert WaitingIds(Unqueued(s, id).peers) == WaitingIds(s.peers) - {id};
      BeginAndSend(Unqueued(s, id), id, disk)
  }

  function Unqueued(s: Server, id: SessionId): Server
    requires id in s.peers
  {
    s.(peers := s.peers[id := s.peers[id].(isQueued := false)])
  }

  ghost function BeginAndSend(s: Server, id: SessionId, disk: Disk): (r: Server)
    requires Valid(s) && id in s.peers
    ensures Valid(r) && r.order == s.order && r.shared == s.shared && r.maxUploads == s.maxUploads
    decreases WaitingIds(s.peers), Remaining(s.peers[id]) + 2
  {
    var begun := BeginFile(s, id, disk);
    assert WaitingIds(begun.peers) == WaitingIds(s.peers);
    if Begins(s, id, disk) then SendNextChunk(begun, id, disk) else begun
  }

  ghost function SessionAccepted(s: Server, id: SessionId): (r: Server)
    requires Valid(s)
    ensures Valid(r) && r.shared == s.shared
  {
    s.(order := if id in s.peers then s.order else s.order + [id],
       peers := s.peers[id := NEW_PEER], sent := s.sent[id := []], drains := s.drains[id := 0])
  }

  function Without(order: seq<SessionId>, id: SessionId): (r: seq<SessionId>)
    ensures forall x :: x in r <==> x in order && x != id
  {
    if order == [] then []
    else if order[0] == id then Without(order[1..], id)
    else [order[0]] + Without(order[1..], id)
  }

  lemma {:induction false} WithoutDistinct(order: seq<SessionId>, id: SessionId)
    requires Distinct(order)
    ensures Distinct(Without(order, id))
  {
    if order != [] {
      assert Distinct(order[1..]);
      WithoutDistinct(order[1..], id);
      var rest := Without(order[1..], id);
      assert order[0] !in order[1..];
      assert forall j | 0 <= j < |rest| :: rest[j] in rest && rest[j] != order[0];
    }
  }

  function Removed(s: Server, id: SessionId): Server {
    s.(order := Without(s.order, id), peers := s.peers - {id})
  }

  ghost function SessionDetached(s: Server, id: SessionId, disk: Disk): (r: Server)
    requires Valid(s)
    ensures Valid(r) && r.shared == s.shared
  {
    WithoutDistinct(s.order, id);
    StartNextQueuedPeer(if id in s.peers then Removed(s, id) else s, disk)
  }

  /** Delivery of one drain notification; it is ignored once its session is gone. */
  ghost function OutputQueuesDrained(s: Server, id: SessionId, disk: Disk): (r: Server)
    requires Valid(s) && id in s.drains && s.drains[id] > 0
    ensures Valid(r) && r.shared == s.shared
  {
    var taken := s.(drains := s.drains[id := s.drains[id] - 1]);
    if id !in taken.peers then taken
    else if taken.peers[id].currentFile.Some? then SendNextChunk(taken, id, disk)
    else BeginAndSend(taken, id, disk)
  }

  /** The requested names that are on offer, in request order. */
  function Resolve(names: seq<string>, shared: map<string, SharedFile>): seq<SharedFile> {
    if names == [] then []
    else
      var before := Resolve(names[..|names| - 1], shared);
      var name := names[|names| - 1];
      if name in shared then before + [shared[name]] else before
  }

  /** Each name stands for itself, wherever it is in the list: known ones for the file on
      offer, unknown ones for nothing, whatever comes before or after. */
  lemma {:induction false} EachNameCounts(a: seq<string>, name: string, b: seq<string>, shared: map<string, SharedFile>)
    ensures Resolve(a + [name] + b, shared)
         == Resolve(a, shared) + (if name in shared then [shared[name]] else []) + Resolve(b, shared)
  {
    var all := a + [name] + b;
    if b == [] {
      assert all[..|a|] == a && all[|a|] == name;
      assert Resolve(a, shared) + [] == Resolve(a, shared);
    } else {
      var last := |b| - 1;
      assert all[..|all| - 1] == a + [name] + b[..last] && all[|all| - 1] == b[last];
      EachNameCounts(a, name, b[..last], shared);
    }
  }

  function Requesting(p: PeerUpload, files: seq<SharedFile>, mungeMode: Option<int>): PeerUpload {
    p.(requestedFiles := files, nextFileIndex := 0,
       mungeMode := if mungeMode == Some(MUNGE_MODE_XOR) then MUNGE_MODE_XOR else p.mungeMode)
  }

  /** The table right after a request is recorded: the requester is counted already. */
  function Recorded(s: Server, id: SessionId, names: seq<string>, mungeMode: Option<int>): Server
    requires id in s.peers
  {
    s.(peers := s.peers[id := Requesting(s.peers[id], Resolve(names, s.shared), mungeMode)])
  }

  ghost function HandleFileList(s: Server, id: SessionId, names: seq<string>, mungeMode: Option<int>,
                                disk: Disk): (r: Server)
    requires Valid(s)
    ensures Valid(r) && r.shared == s.shared
  {
    if id !in s.peers then s
    else
      var r := Recorded(s, id, names, mungeMode);
      if ActiveCount(r) >= r.maxUploads
      then Put(r, id, r.peers[id].(isQueued := true), [NotifyQueued])
      else
        BeginAndSend(Unqueued(r, id), id, disk)
  }

  lemma SentNothing(sent: map<SessionId, seq<Message>>, id: SessionId)
    requires id in sent
    ensures sent[id := sent[id] + []] == sent
  {
    assert sent[id] + [] == sent[id];
  }

  function ActiveAmong(ids: seq<SessionId>, peers: map<SessionId, PeerUpload>): set<SessionId> {
    set id | id in ids && id in peers && IsActive(peers[id])
  }

  lemma ActiveAmongSnoc(ids: seq<SessionId>, i: nat, peers: map<SessionId, PeerUpload>)
    requires Distinct(ids) && i < |ids|
    ensures ids[i] !in ActiveAmong(ids[..i], peers)
    ensures ActiveAmong(ids[..i + 1], peers)
         == ActiveAmong(ids[..i], peers) + if ids[i] in peers && IsActive(peers[ids[i]]) then {ids[i]} else {}
  {
    assert ids[..i + 1] == ids[..i] + [ids[i]];
  }

  // ----- The handlers, step by step -----

  class FileUploadServer {
    var order: seq<SessionId>
    var peers: map<SessionId, PeerUpload>
    var sharedFiles: map<string, SharedFile>
    var maxSimultaneousUploads: nat
    var sent: map<SessionId, seq<Message>>
    var drains: map<SessionId, nat>

    function State(): Server
      reads this
    {
      Server(order, peers, sharedFiles, maxSimultaneousUploads, sent, drains)
    }

    constructor ()
      ensures State() == Server([], map[], map[], 4, map[], map[]) && Valid(State())
    {
      order, peers, sharedFiles, maxSimultaneousUploads := [], map[], map[], 4;
      sent, drains := map[], map[];
    }

    method SetMaxSimultaneousUploads(max: nat)
      modifies this`maxSimultaneousUploads
      ensures maxSimultaneousUploads == if max < 1 then 1 else max
    {
      maxSimultaneousUploads := if max > 1 then max else 1;
    }

    method CountActiveUploads() returns (count: nat)
      requires Valid(State())
      ensures count == ActiveCount(State())
    {
      count := 0;
      for i := 0 to |order|
        invariant count == |ActiveAmong(order[..i], peers)|
      {
        ActiveAmongSnoc(order, i, peers);
        if !peers[order[i]].isQueued && peers[order[i]].requestedFiles != [] {
          count := count + 1;
        }
      }
      assert order[..|order|] == order;
      assert ActiveAmong(order, peers) == ActiveIds(peers);
    }

    method SendToPeer(id: SessionId, message: Message)
      requires id in sent
      modifies this`sent
      ensures sent == old(sent)[id := old(sent)[id] + [message]]
    {
      sent := sent[id := sent[id] + [message]];
    }

    method BeginNext(id: SessionId, disk: Disk) returns (started: bool)
      requires Valid(State()) && id in peers
      modifies this
      ensures State() == BeginFile(old(State()), id, disk)
      ensures started == Begins(old(State()), id, disk)
      decreases Remaining(peers[id])
    {
      var peer := peers[id].(currentFile := None);
      if peer.nextFileIndex >= |peer.requestedFiles| {
        peers := peers[id := peer];
        SentNothing(sent, id);
        return false;
      }
      var file := peer.requestedFiles[peer.nextFileIndex];
      peer := peer.(nextFileIndex := peer.nextFileIndex + 1);
      if file.absolutePath !in disk {
        peers := peers[id := peer];
        started := BeginNext(id, disk);
        return;
      }
      peers := peers[id := peer.(currentFile := Some(OpenFile(disk[file.absolutePath], 0)))];
      SendToPeer(id, Header(file));
      started := true;
    }

    /** Munges a buffer in place, sums it and wraps it up. */
    method MakeChunk(bytes: seq<Byte>, mungeMode: int) returns (chunk: Message)
      ensures chunk == ChunkMessage(bytes, mungeMode)
    {
      var readCount := |bytes|;
      var buffer := new Byte[readCount](i requires 0 <= i < readCount => bytes[i]);
      assert buffer[..readCount] == bytes;
      if mungeMode == MUNGE_MODE_XOR {
        MungeInPlace(buffer, readCount);
      }
      var checksum := CalculateChecksum(buffer, readCount);
      chunk := FileData(Some(buffer[..readCount]), Some(ToInt32(checksum)), Some(mungeMode));
    }

    /** Reads and sends one chunk, and asks to be told when it has gone out. */
    method SendBytes(id: SessionId)
      requires id in peers && id in sent && id in drains && peers[id].currentFile.Some?
      requires NextBytes(peers[id].currentFile.value) != []
      modifies this
      ensures State() == SendChunk(old(State()), id)
    {
      hide NextBytes, ChunkMessage;
      var file := peers[id].currentFile.value;
      var bytes := NextBytes(file);
      var chunk := MakeChunk(bytes, peers[id].mungeMode);
      SendToPeer(id, chunk);
      peers := peers[id := peers[id].(currentFile := Some(file.(position := file.position + |bytes|)))];
      drains := drains[id := drains[id] + 1];
    }

    method SendNext(id: SessionId, disk: Disk)
      requires Valid(State()) && id in peers
      modifies this
      ensures State() == SendNextChunk(old(State()), id, disk)
      decreases WaitingIds(peers), Remaining(peers[id]) + 1
    {
      if peers[id].currentFile.None? {
        return;
      }
      if NextBytes(peers[id].currentFile.value) == [] {
        var started := BeginNext(id, disk);
        assert WaitingIds(peers) == WaitingIds(old(peers));
        if started {
          SendNext(id, disk);
        } else {
          StartNextQueued(disk);
        }
        return;
      }
      SendBytes(id);
    }

    method BeginAndSendNext(id: SessionId, disk: Disk)
      requires Valid(State()) && id in peers
      modifies this
      ensures State() == BeginAndSend(old(State()), id, disk)
      decreases WaitingIds(peers), Remaining(peers[id]) + 2
    {
      hide SendNextChunk, FirstWaiting, ActiveIds;
      var started := BeginNext(id, disk);
      assert WaitingIds(peers) == WaitingIds(old(peers));
      if started {
        SendNext(id, disk);
      }
    }

    method StartNextQueued(disk: Disk)
      requires Valid(State())
      modifies this
      ensures State() == StartNextQueuedPeer(old(State()), disk)
      decreases WaitingIds(peers), 0
    {
      hide ActiveIds, BeginAndSend, FirstWaiting;
      var active := CountActiveUploads();
      if active >= maxSimultaneousUploads {
        return;
      }
      assert order[0..] == order;
      for i := 0 to |order|
        invariant State() == old(State())
        invariant FirstWaiting(order, peers) == FirstWaiting(order[i..], peers)
      {
        FirstWaitingStep(order, peers, i);
        if peers[order[i]].isQueued && peers[order[i]].requestedFiles != [] {
          Promote(order[i], disk);
          return;
        }
      }
      FirstWaitingStep(order, peers, |order|);
    }

    method Promote(id: SessionId, disk: Disk)
      requires Valid(State()) && FirstWaiting(order, peers) == Some(id)
      requires ActiveCount(State()) < maxSimultaneousUploads
      modifies this
      ensures State() == StartNextQueuedPeer(old(State()), disk)
      decreases WaitingIds(peers), 0, 0
    {
      hide ActiveIds, BeginAndSend;
      assert IsWaiting(peers[id]);
      peers := peers[id := peers[id].(isQueued := false)];
      assert WaitingIds(peers) == WaitingIds(old(peers)) - {id};
      BeginAndSendNext(id, disk);
    }

    method Accept(id: SessionId)
      requires Valid(State())
      modifies this
      ensures State() == SessionAccepted(old(State()), id) && Valid(State())
    {
      if id !in peers {
        order := order + [id];
      }
      peers := peers[id := NEW_PEER];
      sent := sent[id := []];
      drains := drains[id := 0];
    }

    method Detach(id: SessionId, disk: Disk)
      requires Valid(State())
      modifies this
      ensures State() == SessionDetached(old(State()), id, disk) && Valid(State())
    {
      if id in peers {
        WithoutDistinct(order, id);
        order := Without(order, id);
        peers := peers - {id};
      }
      StartNextQueued(disk);
    }

    method Drained(id: SessionId, disk: Disk)
      requires Valid(State()) && id in drains && drains[id] > 0
      modifies this
      ensures State() == OutputQueuesDrained(old(State()), id, disk) && Valid(State())
    {
      drains := drains[id := drains[id] - 1];
      if id !in peers {
        return;
      }
      if peers[id].currentFile.Some? {
        SendNext(id, disk);
      } else {
        BeginAndSendNext(id, disk);
      }
    }

    method ResolveNames(names: seq<string>) returns (resolved: seq<SharedFile>)
      ensures resolved == Resolve(names, sharedFiles)
    {
      resolved := [];
      for i := 0 to |names|
        invariant resolved == Resolve(names[..i], sharedFiles)
      {
        assert names[..i + 1][..i] == names[..i];
        if names[i] in sharedFiles {
          resolved := resolved + [sharedFiles[names[i]]];
        }
      }
      assert names[..|names|] == names;
    }

    method FileListReceived(id: SessionId, names: seq<string>, mungeMode: Option<int>, disk: Disk)
      requires Valid(State())
      modifies this
      ensures State() == HandleFileList(old(State()), id, names, mungeMode, disk) && Valid(State())
    {
      if id !in peers {
        return;
      }
      hide Resolve, ActiveIds, WaitingIds, BeginAndSend;
      assert id in sent;
      var resolved := ResolveNames(names);
      peers := peers[id := Requesting(peers[id], resolved, mungeMode)];
      ghost var recorded := Recorded(old(State()), id, names, mungeMode);
      assert State() == recorded;
      var active := CountActiveUploads();
      if active >= maxSimultaneousUploads {
        peers := peers[id := peers[id].(isQueued := true)];
        SendToPeer(id, NotifyQueued);
        return;
      }
      peers := peers[id := peers[id].(isQueued := false)];
      assert State() == Unqueued(recorded, id);
      BeginAndSendNext(id, disk);
    }
  }
}
