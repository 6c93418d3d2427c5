// Three runs in which a session sends the upload server a second file list: two files open
// with one slot, nobody served while somebody waits, and a waiter served out of turn.

module SecondRequests {

  import opened Prelude
  import opened ChunkIntegrity
  import opened TransferProtocol
  import opened UploadServer
  import opened UploadAdmission

  const FILE: SharedFile := SharedFile("f", "", "/f", 1)
  const SHARED: map<string, SharedFile> := map["f" := FILE]
  const CONTENTS: seq<Byte> := [0]
  const DISK: Disk := map["/f" := CONTENTS]

  const LISTED: PeerUpload := PeerUpload([FILE], None, MUNGE_MODE_NONE, 0, false)
  const WAITING: PeerUpload := LISTED.(isQueued := true)
  const SERVED: PeerUpload := PeerUpload([FILE], Some(OpenFile(CONTENTS, 1)), MUNGE_MODE_NONE, 1, false)
  const OVERTAKEN: PeerUpload := SERVED.(nextFileIndex := 0, isQueued := true)

  ghost predicate At(r: Run, maxUploads: nat, order: seq<SessionId>, peers: map<SessionId, PeerUpload>,
                     known: set<SessionId>)
  {
    && Valid(r.server) && r.server.shared == SHARED && r.server.maxUploads == maxUploads
    && r.server.order == order && r.server.peers == peers && r.lists.Keys == known && peers.Keys <= known
  }

  lemma ResolvesFile()
    ensures Resolve(["f"], SHARED) == [FILE] && Resolve([], SHARED) == []
  {
    assert ["f"][..0] == [];
  }

  /** Beginning a peer opens the first file it wants and sends the one chunk of it. */
  lemma Opening(s: Server, id: SessionId, disk: Disk)
    requires Valid(s) && id in s.peers && s.peers[id].requestedFiles != [] && s.peers[id].nextFileIndex == 0
    requires var path := s.peers[id].requestedFiles[0].absolutePath;
      path in disk && disk[path] == CONTENTS
    ensures var t := BeginAndSend(s, id, disk);
      && t.peers == s.peers[id := s.peers[id].(currentFile := Some(OpenFile(CONTENTS, 1)), nextFileIndex := 1)]
      && t.order == s.order && t.drains.Keys == s.drains.Keys
  {
    hide ChunkMessage;
    var p := s.peers[id];
    var begun := BeginFile(s, id, disk);
    assert begun.peers[id] == p.(currentFile := Some(OpenFile(CONTENTS, 0)), nextFileIndex := 1);
    assert NextBytes(OpenFile(CONTENTS, 0)) == CONTENTS;
    assert SendNextChunk(begun, id, disk) == SendChunk(begun, id);
  }

  lemma Serving(s: Server, id: SessionId)
    requires Valid(s) && id in s.peers && s.peers[id] == LISTED
    ensures var t := BeginAndSend(s, id, DISK);
      t.peers == s.peers[id := SERVED] && t.order == s.order
  {
    hide BeginAndSend;
    Opening(s, id, DISK);
  }

  // ----- One event -----

  lemma Accepting(r: Run, maxUploads: nat, order: seq<SessionId>, peers: map<SessionId, PeerUpload>,
                  known: set<SessionId>, id: SessionId)
    requires At(r, maxUploads, order, peers, known) && id !in known
    ensures At(Step(r, Accepted(id)), maxUploads, order + [id], peers[id := NEW_PEER], known + {id})
  {
  }

  lemma ListingServes(r: Run, maxUploads: nat, order: seq<SessionId>, peers: map<SessionId, PeerUpload>,
                      known: set<SessionId>, id: SessionId)
    requires At(r, maxUploads, order, peers, known) && id in peers && (peers[id] == NEW_PEER || peers[id] == WAITING)
    requires |ActiveIds(peers[id := peers[id].(requestedFiles := [FILE], nextFileIndex := 0)])| < maxUploads
    ensures At(Step(r, Listed(id, ["f"], None, DISK)), maxUploads, order, peers[id := SERVED], known)
  {
    hide BeginAndSend, ActiveIds, WaitingIds, OpenIds, Resolve;
    ResolvesFile();
    var m := Recorded(r.server, id, ["f"], None);
    assert m.peers == peers[id := peers[id].(requestedFiles := [FILE], nextFileIndex := 0)];
    assert Unqueued(m, id).peers == peers[id := LISTED];
    Serving(Unqueued(m, id), id);
    assert Unqueued(m, id).peers[id := SERVED] == peers[id := SERVED];
  }

  lemma ListingQueues(r: Run, maxUploads: nat, order: seq<SessionId>, peers: map<SessionId, PeerUpload>,
                      known: set<SessionId>, id: SessionId)
    requires At(r, maxUploads, order, peers, known) && id in peers
    requires peers[id] == NEW_PEER || peers[id] == SERVED
    requires |ActiveIds(peers[id := peers[id].(requestedFiles := [FILE], nextFileIndex := 0)])| >= maxUploads
    ensures At(Step(r, Listed(id, ["f"], None, DISK)), maxUploads, order,
               peers[id := if peers[id] == NEW_PEER then WAITING else OVERTAKEN], known)
  {
    hide BeginAndSend, ActiveIds, Resolve;
    ResolvesFile();
    var m := Recorded(r.server, id, ["f"], None);
    assert m.peers == peers[id := peers[id].(requestedFiles := [FILE], nextFileIndex := 0)];
  }

  lemma ListingNothing(r: Run, maxUploads: nat, order: seq<SessionId>, peers: map<SessionId, PeerUpload>,
                       known: set<SessionId>, id: SessionId)
    requires At(r, maxUploads, order, peers, known) && id in peers && peers[id] == SERVED
    requires |ActiveIds(peers[id := SERVED.(requestedFiles := [], nextFileIndex := 0)])| < maxUploads
    ensures At(Step(r, Listed(id, [], None, DISK)), maxUploads, order, peers[id := NEW_PEER], known)
  {
    hide ActiveIds, Resolve;
    ResolvesFile();
    var m := Recorded(r.server, id, [], None);
    var p := SERVED.(requestedFiles := [], nextFileIndex := 0);
    assert m.peers == peers[id := p];
    assert Unqueued(m, id) == m by { assert m.peers[id := p] == m.peers; }
    assert BeginNextFile(p, DISK) == Begun(NEW_PEER, false, []);
  }

  /** The queue's turn: its head is served. */
  lemma Promoting(s: Server, id: SessionId)
    requires Valid(s) && ActiveCount(s) < s.maxUploads && FirstWaiting(s.order, s.peers) == Some(id)
    requires id in s.peers && s.peers[id] == WAITING
    ensures var t := StartNextQueuedPeer(s, DISK);
      t.peers == s.peers[id := SERVED] && t.order == s.order && Valid(t)
  {
    hide ActiveIds, FirstWaiting, BeginAndSend;
    var m := Unqueued(s, id);
    assert m.peers[id] == LISTED;
    Serving(m, id);
    assert m.peers[id := SERVED] == s.peers[id := SERVED];
  }

  lemma DetachingPromotes(r: Run, maxUploads: nat, order: seq<SessionId>, peers: map<SessionId, PeerUpload>,
                          known: set<SessionId>, gone: SessionId, id: SessionId)
    requires At(r, maxUploads, order, peers, known) && gone in peers && |ActiveIds(peers - {gone})| < maxUploads
    requires id in peers && id != gone && peers[id] == WAITING && (forall x | x in order :: x in peers)
    requires FirstWaiting(Without(order, gone), peers - {gone}) == Some(id)
    ensures At(Step(r, Detached(gone, DISK)), maxUploads, Without(order, gone), (peers - {gone})[id := SERVED], known)
  {
    hide ActiveIds, FirstWaiting, StartNextQueuedPeer, Without;
    var left := Removed(r.server, gone);
    RemovedIsValid(r.server, gone);
    Promoting(left, id);
  }

  lemma RemovedIsValid(s: Server, gone: SessionId)
    requires Valid(s)
    ensures Valid(Removed(s, gone))
  {
    WithoutDistinct(s.order, gone);
  }

  // ----- Runs, with what they lead to -----

  /** Who is connected, in the order of acceptance, and how each stands. */
  datatype Table = Table(order: seq<SessionId>, peers: map<SessionId, PeerUpload>, known: set<SessionId>)

  ghost predicate Reaches(maxUploads: nat, events: seq<Event>, t: Table) {
    At(After(maxUploads, events), maxUploads, t.order, t.peers, t.known)
  }

  predicate NobodyLeft(events: seq<Event>) { forall e | e in events :: !e.Detached? }

  lemma AfterSnoc(maxUploads: nat, events: seq<Event>, e: Event)
    ensures After(maxUploads, events + [e]) == Step(After(maxUploads, events), e)
  {
    assert (events + [e])[..|events|] == events;
  }

  lemma Begin(maxUploads: nat) returns (events: seq<Event>)
    ensures Reaches(maxUploads, events, Table([], map[], {})) && NobodyLeft(events)
  {
    events := [Shared(SHARED)];
    assert events[..0] == [];
  }

  lemma Accept(maxUploads: nat, events: seq<Event>, t: Table, id: SessionId) returns (next: seq<Event>)
    requires Reaches(maxUploads, events, t) && id !in t.known
    ensures Reaches(maxUploads, next, Table(t.order + [id], t.peers[id := NEW_PEER], t.known + {id}))
    ensures NobodyLeft(events) ==> NobodyLeft(next)
  {
    hide After, Step, At;
    AfterSnoc(maxUploads, events, Accepted(id));
    Accepting(After(maxUploads, events), maxUploads, t.order, t.peers, t.known, id);
    next := events + [Accepted(id)];
  }

  function Asks(id: SessionId): Event { Listed(id, ["f"], None, DISK) }

  lemma List(maxUploads: nat, events: seq<Event>, t: Table, id: SessionId, p: PeerUpload) returns (next: seq<Event>)
    requires Reaches(maxUploads, events, t) && id in t.peers
    requires var asked := t.peers[id].(requestedFiles := [FILE], nextFileIndex := 0);
      if |ActiveIds(t.peers[id := asked])| < maxUploads
      then (t.peers[id] == NEW_PEER || t.peers[id] == WAITING) && p == SERVED
      else (t.peers[id] == NEW_PEER && p == WAITING) || (t.peers[id] == SERVED && p == OVERTAKEN)
    ensures Reaches(maxUploads, next, t.(peers := t.peers[id := p]))
    ensures NobodyLeft(events) ==> NobodyLeft(next)
  {
    hide After, Step, At, ActiveIds;
    var e := Asks(id);
    AfterSnoc(maxUploads, events, e);
    if p == SERVED {
      ListingServes(After(maxUploads, events), maxUploads, t.order, t.peers, t.known, id);
    } else {
      ListingQueues(After(maxUploads, events), maxUploads, t.order, t.peers, t.known, id);
    }
    next := events + [e];
  }

  lemma Leave(maxUploads: nat, events: seq<Event>, t: Table, gone: SessionId, id: SessionId)
    returns (next: seq<Event>)
    requires Reaches(maxUploads, events, t) && gone in t.peers && |ActiveIds(t.peers - {gone})| < maxUploads
    requires id in t.peers && id != gone && t.peers[id] == WAITING && (forall x | x in t.order :: x in t.peers)
    requires FirstWaiting(Without(t.order, gone), t.peers - {gone}) == Some(id)
    ensures Reaches(maxUploads, next, Table(Without(t.order, gone), (t.peers - {gone})[id := SERVED], t.known))
  {
    hide After, Step, At, ActiveIds, FirstWaiting, Without;
    AfterSnoc(maxUploads, events, Detached(gone, DISK));
    DetachingPromotes(After(maxUploads, events), maxUploads, t.order, t.peers, t.known, gone, id);
    next := events + [Detached(gone, DISK)];
  }

  /** Two slots, one served, one waiting because the requester counts itself. The served
      session asks again, for nothing on offer: now nobody is served, and the waiting one
      is not promoted. */
  lemma SecondListLeavesSlotsVacant()
    ensures exists events :: var s := After(2, events).server;
      WaitingIds(s.peers) != {} && |ActiveIds(s.peers)| == 0
  {
    hide After, Step, Reaches, NobodyLeft;
    var events := Begin(2);
    events := Accept(2, events, Table([], map[], {}), "a");
    var t := Table([] + ["a"], map[]["a" := NEW_PEER], {} + {"a"});
    events := Accept(2, events, t, "b");
    t := Table(t.order + ["b"], t.peers["b" := NEW_PEER], t.known + {"b"});
    assert ActiveIds(t.peers["a" := LISTED]) == {"a"};
    events := List(2, events, t, "a", SERVED);
    t := t.(peers := t.peers["a" := SERVED]);
    assert ActiveIds(t.peers["b" := LISTED]) == {"a", "b"};
    events := List(2, events, t, "b", WAITING);
    t := t.(peers := t.peers["b" := WAITING]);
    var p := SERVED.(requestedFiles := [], nextFileIndex := 0);
    assert ActiveIds(t.peers["a" := p]) == {};
    events := ListNothing(2, events, t, "a");
    assert ActiveIds(t.peers["a" := NEW_PEER]) == {} && "b" in WaitingIds(t.peers["a" := NEW_PEER]);
    ReachesPeers(2, events, t.(peers := t.peers["a" := NEW_PEER]));
  }

  lemma BothWait() returns (events: seq<Event>, t: Table)
    ensures Reaches(1, events, t) && NobodyLeft(events)
    ensures t.order == ["a", "b"] && t.peers == map["a" := WAITING, "b" := WAITING]
  {
    hide After, Step, Reaches, NobodyLeft;
    events := Begin(1);
    events := Accept(1, events, Table([], map[], {}), "a");
    t := Table([] + ["a"], map[]["a" := NEW_PEER], {} + {"a"});
    events := Accept(1, events, t, "b");
    t := Table(t.order + ["b"], t.peers["b" := NEW_PEER], t.known + {"b"});
    assert ActiveIds(t.peers["a" := LISTED]) == {"a"};
    events := List(1, events, t, "a", WAITING);
    t := t.(peers := t.peers["a" := WAITING]);
    assert ActiveIds(t.peers["b" := LISTED]) == {"b"};
    events := List(1, events, t, "b", WAITING);
    t := t.(peers := t.peers["b" := WAITING]);
  }

  /** One slot, free all the time, and two sessions, of which a came first. Each asks and
      waits, because it is counted itself; b asks again, is not counted this time, and is
      served ahead of a, although nobody has left. */
  lemma AskingAgainJumpsTheQueue()
    ensures exists events ::
      && NobodyLeft(events)
      && var s, t := After(1, events).server, Step(After(1, events), Asks("b")).server;
      && s.order == ["a", "b"] && WaitingIds(s.peers) == {"a", "b"} && ActiveIds(s.peers) == {}
      && WaitingIds(t.peers) == {"a"} && ActiveIds(t.peers) == {"b"}
  {
    hide After, Step, Reaches, NobodyLeft, At;
    var events, t := BothWait();
    ReachesPeers(1, events, t);
    assert ActiveIds(t.peers["b" := WAITING]) == {};
    ServesAgain(events, t);
    assert ActiveIds(t.peers["b" := SERVED]) == {"b"} && WaitingIds(t.peers["b" := SERVED]) == {"a"};
  }

  lemma ServesAgain(events: seq<Event>, t: Table)
    requires Reaches(1, events, t) && "b" in t.peers && t.peers["b"] == WAITING
    requires |ActiveIds(t.peers["b" := WAITING])| < 1
    ensures Step(After(1, events), Asks("b")).server.peers == t.peers["b" := SERVED]
  {
    hide After, Step, ActiveIds;
    ListingServes(After(1, events), 1, t.order, t.peers, t.known, "b");
  }

  lemma {:induction false} WithoutOne(before: seq<SessionId>, gone: SessionId, after: seq<SessionId>)
    requires gone !in before && gone !in after
    ensures Without(before + [gone] + after, gone) == before + after
    decreases |before|
  {
    if before == [] {
      NobodyGone(after, gone);
      assert ([gone] + after)[1..] == after && [] + [gone] + after == [gone] + after && [] + after == after;
    } else {
      assert (before + [gone] + after)[1..] == before[1..] + [gone] + after;
      WithoutOne(before[1..], gone, after);
      assert [before[0]] + (before[1..] + after) == before + after;
    }
  }

  lemma {:induction false} NobodyGone(order: seq<SessionId>, gone: SessionId)
    requires gone !in order
    ensures Without(order, gone) == order
  {
    if order != [] {
      NobodyGone(order[1..], gone);
    }
  }

  lemma {:induction false} FirstToWait(before: seq<SessionId>, id: SessionId, after: seq<SessionId>,
                                       peers: map<SessionId, PeerUpload>)
    requires forall x | x in before + [id] + after :: x in peers
    requires IsWaiting(peers[id]) && forall x | x in before :: !IsWaiting(peers[x])
    ensures FirstWaiting(before + [id] + after, peers) == Some(id)
    decreases |before|
  {
    if before == [] {
      assert [] + [id] + after == [id] + after;
    } else {
      assert (before + [id] + after)[1..] == before[1..] + [id] + after;
      FirstToWait(before[1..], id, after, peers);
    }
  }

  lemma FourAccepted() returns (events: seq<Event>, t: Table)
    ensures Reaches(1, events, t) && t.order == ["c", "a", "d", "e"]
    ensures t.peers == map["c" := NEW_PEER, "a" := NEW_PEER, "d" := NEW_PEER, "e" := NEW_PEER]
  {
    hide After, Step, Reaches, NobodyLeft;
    events := Begin(1);
    events := Accept(1, events, Table([], map[], {}), "c");
    t := Table([] + ["c"], map[]["c" := NEW_PEER], {} + {"c"});
    events := Accept(1, events, t, "a");
    t := Table(t.order + ["a"], t.peers["a" := NEW_PEER], t.known + {"a"});
    events := Accept(1, events, t, "d");
    t := Table(t.order + ["d"], t.peers["d" := NEW_PEER], t.known + {"d"});
    events := Accept(1, events, t, "e");
    t := Table(t.order + ["e"], t.peers["e" := NEW_PEER], t.known + {"e"});
  }

  /** Of four sessions, c came first and a asks; a departure lets a in. */
  lemma OneServed() returns (events: seq<Event>, t: Table)
    ensures Reaches(1, events, t) && t.order == ["c", "a", "e"]
    ensures t.peers == map["c" := NEW_PEER, "a" := SERVED, "e" := NEW_PEER]
  {
    hide After, Step, Reaches, Without, FirstWaiting, NobodyLeft;
    events, t := FourAccepted();
    assert ActiveIds(t.peers["a" := LISTED]) == {"a"};
    events := List(1, events, t, "a", WAITING);
    t := t.(peers := t.peers["a" := WAITING]);
    assert t.order == ["c", "a"] + ["d"] + ["e"] && ["c", "a"] + ["e"] == ["c"] + ["a"] + ["e"] == ["c", "a", "e"];
    WithoutOne(["c", "a"], "d", ["e"]);
    FirstToWait(["c"], "a", ["e"], t.peers - {"d"});
    assert ActiveIds(t.peers - {"d"}) == {};
    events := Leave(1, events, t, "d", "a");
    t := Table(["c", "a", "e"], (t.peers - {"d"})["a" := SERVED], t.known);
  }

  /** Then c asks and waits, and a asks again: it is put on the waiting list, with its file
      open, behind c. */
  lemma ServedAsksAgain() returns (events: seq<Event>, t: Table)
    ensures Reaches(1, events, t) && t.order == ["c", "a", "e"]
    ensures t.peers == map["c" := WAITING, "a" := OVERTAKEN, "e" := NEW_PEER]
  {
    hide After, Step, Reaches, NobodyLeft;
    events, t := OneServed();
    assert ActiveIds(t.peers["c" := LISTED]) == {"a", "c"};
    events := List(1, events, t, "c", WAITING);
    t := t.(peers := t.peers["c" := WAITING]);
    assert ActiveIds(t.peers["a" := SERVED.(requestedFiles := [FILE], nextFileIndex := 0)]) == {"a"};
    events := List(1, events, t, "a", OVERTAKEN);
    t := t.(peers := t.peers["a" := OVERTAKEN]);
  }

  /** When e leaves, c is let in. */
  lemma OtherLetIn() returns (events: seq<Event>, t: Table)
    ensures Reaches(1, events, t) && t.peers == map["c" := SERVED, "a" := OVERTAKEN]
  {
    hide After, Step, Reaches, Without, FirstWaiting, NobodyLeft;
    events, t := ServedAsksAgain();
    assert t.order == ["c", "a"] + ["e"] + [] && ["c", "a"] + [] == [] + ["c"] + ["a"];
    WithoutOne(["c", "a"], "e", []);
    FirstToWait([], "c", ["a"], t.peers - {"e"});
    assert ActiveIds(t.peers - {"e"}) == {};
    events := Leave(1, events, t, "e", "c");
    t := Table(Without(t.order, "e"), (t.peers - {"e"})["c" := SERVED], t.known);
  }

  /** One slot. The served session asks again while every slot is taken: it is put on the
      waiting list with its file open. When somebody else leaves, the other waiter is let
      in, and two files are open. */
  lemma SecondListOverrunsOpenFiles()
    ensures exists events :: var s := After(1, events).server;
      |ActiveIds(s.peers)| <= 1 && |OpenIds(s.peers)| == 2
  {
    hide After, Reaches;
    var events, t := OtherLetIn();
    ReachesPeers(1, events, t);
    assert ActiveIds(t.peers) == {"c"} && OpenIds(t.peers) == {"c", "a"};
  }

  lemma ListNothing(maxUploads: nat, events: seq<Event>, t: Table, id: SessionId) returns (next: seq<Event>)
    requires Reaches(maxUploads, events, t) && id in t.peers && t.peers[id] == SERVED
    requires |ActiveIds(t.peers[id := SERVED.(requestedFiles := [], nextFileIndex := 0)])| < maxUploads
    ensures Reaches(maxUploads, next, t.(peers := t.peers[id := NEW_PEER]))
  {
    hide After, Step, At, ActiveIds;
    AfterSnoc(maxUploads, events, Listed(id, [], None, DISK));
    ListingNothing(After(maxUploads, events), maxUploads, t.order, t.peers, t.known, id);
    next := events + [Listed(id, [], None, DISK)];
  }

  lemma ReachesPeers(maxUploads: nat, events: seq<Event>, t: Table)
    requires Reaches(maxUploads, events, t)
    ensures After(maxUploads, events).server.peers == t.peers && After(maxUploads, events).server.order == t.order
  {
  }
}
