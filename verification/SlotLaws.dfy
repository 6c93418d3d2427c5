// Which peers hold an upload slot, wait for one or have a file open, in every run: what
// each event does to the slots, and exactly which requests disturb them.

module SlotLaws {

  import opened Prelude
  import opened TransferProtocol
  import opened UploadServer
  import opened UploadAdmission

  /** The server after the first k events of a run. */
  ghost function Before(maxUploads: nat, events: seq<Event>, k: nat): Run
    requires k <= |events|
  {
    After(maxUploads, events[..k])
  }

  lemma BeforeNext(maxUploads: nat, events: seq<Event>, k: nat)
    requires maxUploads >= 1 && k < |events|
    ensures Good(Before(maxUploads, events, k)) && Before(maxUploads, events, k).server.maxUploads == maxUploads
    ensures Before(maxUploads, events, k + 1) == Step(Before(maxUploads, events, k), events[k])
  {
    hide Good, Step;
    assert events[..k + 1][..k] == events[..k];
    RunKeepsGood(maxUploads, events[..k]);
  }

  /** What is true at first holds throughout exactly if no step breaks it. keeps is what
      the induction needs to know beyond holds. */
  lemma HoldsIffNeverBroken(from: nat, n: nat, keeps: nat -> bool, holds: nat -> bool, breaks: nat -> bool)
    requires from <= n && keeps(from) && forall k | from <= k <= n && keeps(k) :: holds(k)
    requires forall k | from <= k < n && keeps(k) :: if breaks(k) then !holds(k + 1) else keeps(k + 1)
    ensures (forall k | from <= k <= n :: holds(k)) <==> (forall k | from <= k < n :: !breaks(k))
  {
    if forall k | from <= k <= n :: holds(k) {
      for i := from to n
        invariant keeps(i)
        invariant forall k | from <= k < i :: !breaks(k)
      {
        assert holds(i + 1);
      }
    }
    if forall k | from <= k < n :: !breaks(k) {
      for i := from to n
        invariant forall k | from <= k <= i :: keeps(k)
      {
        assert keeps(i) && !breaks(i);
      }
    }
  }

  // ----- One request -----

  /** How many served peers a request finds, the requester among them if it is counted. */
  function Counted(s: Server, id: SessionId, wanted: seq<SharedFile>): nat
    requires id in s.peers
  {
    |ActiveIds(s.peers) - {id}| + if s.peers[id].isQueued || wanted == [] then 0 else 1
  }

  lemma OneRecordChanged(peers: map<SessionId, PeerUpload>, id: SessionId, p: PeerUpload)
    ensures ActiveIds(peers[id := p]) == ActiveIds(peers) - {id} + if IsActive(p) then {id} else {}
    ensures WaitingIds(peers[id := p]) == WaitingIds(peers) - {id} + if IsWaiting(p) then {id} else {}
  {
  }

  lemma RecordedSlots(s: Server, id: SessionId, names: seq<string>, mungeMode: Option<int>)
    requires Valid(s) && id in s.peers
    ensures var m, wanted := Recorded(s, id, names, mungeMode), Resolve(names, s.shared);
      ActiveCount(m) == Counted(s, id, wanted)
  {
    hide Resolve, ActiveIds;
    OneRecordChanged(s.peers, id, Recorded(s, id, names, mungeMode).peers[id]);
  }

  /** A request that finds room: the requester is off the waiting list and about to be
      served, if it wants anything. */
  lemma AdmittedSlots(s: Server, id: SessionId, names: seq<string>, mungeMode: Option<int>)
    requires Valid(s) && id in s.peers
    ensures var u, wanted := Unqueued(Recorded(s, id, names, mungeMode), id), Resolve(names, s.shared);
      && ActiveIds(u.peers) == ActiveIds(s.peers) - {id} + (if wanted == [] then {} else {id})
      && WaitingIds(u.peers) == WaitingIds(s.peers) - {id}
      && OpenIds(u.peers) == OpenIds(s.peers)
      && Valid(u) && id in u.peers && u.peers[id].requestedFiles == wanted && !u.peers[id].isQueued
      && u.drains == s.drains && u.maxUploads == s.maxUploads
      && (forall x | x in s.peers && x != id :: x in u.peers && u.peers[x] == s.peers[x])
  {
  }

  /** A request that finds none: the requester is put on the waiting list and told so. */
  lemma QueuedSlots(s: Server, id: SessionId, names: seq<string>, mungeMode: Option<int>)
    requires Valid(s) && id in s.peers
    ensures var m, wanted := Recorded(s, id, names, mungeMode), Resolve(names, s.shared);
      id in m.peers && id in m.sent &&
      var t := Put(m, id, m.peers[id].(isQueued := true), [NotifyQueued]);
      && ActiveIds(t.peers) == ActiveIds(s.peers) - {id}
      && WaitingIds(t.peers) == WaitingIds(s.peers) - {id} + (if wanted == [] then {} else {id})
      && OpenIds(t.peers) == OpenIds(s.peers)
      && t.drains == s.drains && t.maxUploads == s.maxUploads && t.sent == s.sent[id := s.sent[id] + [NotifyQueued]]
      && id in t.peers && t.peers[id].isQueued
  {
  }

  /** Admission, for every request of any peer. It is served exactly if it names something
      on offer and fewer slots are in use than there are, where the requester itself counts
      unless it was waiting; so a newcomer needs two free slots and a waiting peer that asks
      again needs one. It waits exactly if it names something and they are not; it has been
      told so. A newcomer is served only when nobody waits. */
  lemma RequestAdmitted(s: Server, id: SessionId, names: seq<string>, mungeMode: Option<int>, disk: Disk)
    requires Valid(s) && id in s.peers
    ensures var t, wanted := HandleFileList(s, id, names, mungeMode, disk), Resolve(names, s.shared);
      var inUse := |ActiveIds(s.peers) - {id}| + if s.peers[id].isQueued then 0 else 1;
      && (id in ActiveIds(t.peers) <==> wanted != [] && inUse < s.maxUploads)
      && (id in WaitingIds(t.peers) <==> wanted != [] && inUse >= s.maxUploads)
      && (wanted != [] && inUse >= s.maxUploads ==> t.sent == s.sent[id := s.sent[id] + [NotifyQueued]])
      && (Staffed(s) && id !in ActiveIds(s.peers) && !s.peers[id].isQueued && id in ActiveIds(t.peers) ==>
            WaitingIds(s.peers) == {})
  {
    hide Recorded, Resolve, BeginAndSend, TokensBounded, ActiveIds, WaitingIds, OpenIds, Put, Unqueued;
    RecordedIsValid(s, id, names, mungeMode);
    RecordedSlots(s, id, names, mungeMode);
    var t, wanted := HandleFileList(s, id, names, mungeMode, disk), Resolve(names, s.shared);
    if Counted(s, id, wanted) < s.maxUploads {
      AdmittedSlots(s, id, names, mungeMode);
      var u := Unqueued(Recorded(s, id, names, mungeMode), id);
      BeginAndSendEffect(u, id, disk);
      Standing(t, id);
    } else {
      QueuedSlots(s, id, names, mungeMode);
      Standing(t, id);
    }
    if id !in ActiveIds(s.peers) {
      assert ActiveIds(s.peers) - {id} == ActiveIds(s.peers);
    }
  }

  lemma Standing(t: Server, id: SessionId)
    requires id in t.peers
    ensures id in ActiveIds(t.peers) <==> !t.peers[id].isQueued && t.peers[id].requestedFiles != []
    ensures id in WaitingIds(t.peers) <==> t.peers[id].isQueued && t.peers[id].requestedFiles != []
  {
  }

  // ----- Open files -----

  /** Only served peers have a file open, and no notification is on its way that would make
      a waiting peer open one. */
  ghost predicate FilesInSlots(s: Server) {
    && OpenIds(s.peers) <= ActiveIds(s.peers)
    && (forall id | id in WaitingIds(s.peers) && id in s.drains :: s.drains[id] == 0)
  }

  /** A request that puts its sender on the waiting list in the middle of a transfer: with
      its file open, or with a drain notification on its way that will open one. */
  ghost predicate Overtakes(r: Run, e: Event) {
    var s := r.server;
    && e.Listed? && e.id in s.peers
    && Counted(s, e.id, Resolve(e.names, s.shared)) >= s.maxUploads
    && (|| s.peers[e.id].currentFile.Some?
        || (Resolve(e.names, s.shared) != [] && e.id in s.drains && s.drains[e.id] > 0))
  }

  /** No new notifications for those who still wait. */
  lemma WaitersUndisturbed(s: Server, t: Server, credit: set<SessionId>)
    requires Valid(s) && FilesInSlots(s) && t.drains.Keys == s.drains.Keys
    requires TokensBounded(s, t, credit) && WaitingIds(t.peers) <= WaitingIds(s.peers)
    requires WaitingIds(t.peers) !! credit && OpenIds(t.peers) <= ActiveIds(t.peers)
    ensures FilesInSlots(t)
  {
    forall id | id in WaitingIds(t.peers) && id in t.drains ensures t.drains[id] == 0 {
      assert Tokens(t, id) <= Tokens(s, id) == 1;
    }
  }

  lemma DrainKeepsFiles(s: Server, id: SessionId, disk: Disk)
    requires Valid(s) && FilesInSlots(s) && id in s.drains && s.drains[id] > 0
    ensures FilesInSlots(OutputQueuesDrained(s, id, disk))
  {
    hide SendNextChunk, StartNextQueuedPeer, ActiveIds, WaitingIds, OpenIds, TokensBounded, FilesInSlots;
    var t := OutputQueuesDrained(s, id, disk);
    DrainEffect(s, id, disk);
    if Queued(s, id) == 1 {
      NothingToOpen(s, id, disk);
    }
    FilesInSlotsIs(s);
    WaitersUndisturbed(s, t, {});
  }

  lemma FilesInSlotsIs(s: Server)
    requires FilesInSlots(s)
    ensures OpenIds(s.peers) <= ActiveIds(s.peers)
  {
  }

  /** A queued peer that is notified wants nothing. */
  lemma NothingToOpen(s: Server, id: SessionId, disk: Disk)
    requires Valid(s) && FilesInSlots(s) && id in s.drains && s.drains[id] > 0 && Queued(s, id) == 1
    ensures var t := OutputQueuesDrained(s, id, disk);
      OpenIds(t.peers) <= ActiveIds(t.peers)
  {
    hide SendNextChunk;
    Standing(s, id);
    assert s.peers[id].requestedFiles == [];
    assert id !in ActiveIds(s.peers) && id !in OpenIds(s.peers);
    var taken := s.(drains := s.drains[id := s.drains[id] - 1]);
    BeginFileEffect(taken, id, disk);
  }

  lemma DetachKeepsFiles(s: Server, id: SessionId, disk: Disk)
    requires Valid(s) && FilesInSlots(s)
    ensures FilesInSlots(SessionDetached(s, id, disk))
  {
    hide StartNextQueuedPeer, ActiveIds, WaitingIds, OpenIds, TokensBounded;
    var left := Left(s, id);
    if id in s.peers {
      RemovedEffect(s, id);
    }
    assert FilesInSlots(left);
    StartNextEffect(left, disk);
    WaitersUndisturbed(left, SessionDetached(s, id, disk), {});
  }

  lemma ListKeepsFiles(s: Server, id: SessionId, names: seq<string>, mungeMode: Option<int>, disk: Disk)
    requires Valid(s) && FilesInSlots(s) && id in s.peers
    ensures var wanted := Resolve(names, s.shared);
      FilesInSlots(HandleFileList(s, id, names, mungeMode, disk)) <==>
        !(Counted(s, id, wanted) >= s.maxUploads
          && (s.peers[id].currentFile.Some? || (wanted != [] && s.drains[id] > 0)))
  {
    hide Recorded, Resolve, BeginAndSend, ActiveIds, WaitingIds, Put, Unqueued, Counted, TokensBounded;
    RecordedIsValid(s, id, names, mungeMode);
    RecordedSlots(s, id, names, mungeMode);
    var t, wanted := HandleFileList(s, id, names, mungeMode, disk), Resolve(names, s.shared);
    if Counted(s, id, wanted) < s.maxUploads {
      AdmittedSlots(s, id, names, mungeMode);
      var u := Unqueued(Recorded(s, id, names, mungeMode), id);
      BeginAndSendEffect(u, id, disk);
      Standing(t, id);
      RequestKeepsWaiters(s, u, t, id);
    } else {
      QueuedSlots(s, id, names, mungeMode);
      Standing(t, id);
    }
  }

  lemma RequestKeepsWaiters(s: Server, u: Server, t: Server, id: SessionId)
    requires Valid(s) && FilesInSlots(s) && u.drains == s.drains && t.drains.Keys == u.drains.Keys
    requires WaitingIds(u.peers) == WaitingIds(s.peers) - {id} && WaitingIds(t.peers) <= WaitingIds(u.peers)
    requires TokensBounded(u, t, {id}) && OpenIds(t.peers) <= ActiveIds(t.peers)
    ensures FilesInSlots(t)
  {
    forall x | x in WaitingIds(t.peers) && x in t.drains ensures t.drains[x] == 0 {
      assert x in WaitingIds(u.peers) && x != id;
      assert Tokens(t, x) <= Tokens(u, x) == 1;
    }
  }

  lemma AcceptKeepsFiles(s: Server, id: SessionId)
    requires Valid(s) && FilesInSlots(s) && id !in s.peers
    ensures FilesInSlots(SessionAccepted(s, id))
  {
    hide ActiveIds, WaitingIds, OpenIds;
    AcceptedHoldsNoSlot(s, id);
  }

  lemma StepKeepsFiles(r: Run, e: Event)
    requires Good(r) && FilesInSlots(r.server)
    ensures FilesInSlots(Step(r, e).server) <==> !Overtakes(r, e)
  {
    hide FilesInSlots, Counted, Resolve, HandleFileList, SessionDetached, OutputQueuesDrained;
    match e
    case Accepted(id) =>
      if id !in r.lists {
        AcceptedIsNew(r, id);
        AcceptKeepsFiles(r.server, id);
      }
    case Listed(id, names, mungeMode, disk) =>
      if id in r.server.peers {
        ListKeepsFiles(r.server, id, names, mungeMode, disk);
      }
    case Drained(id, disk) =>
      if id in r.server.drains && r.server.drains[id] > 0 {
        DrainKeepsFiles(r.server, id, disk);
      }
    case Detached(id, disk) => DetachKeepsFiles(r.server, id, disk);
    case Shared(files) => SharingKeepsFiles(r.server, files);
  }

  lemma SharingKeepsFiles(s: Server, files: map<string, SharedFile>)
    requires FilesInSlots(s)
    ensures FilesInSlots(s.(shared := files))
  {
  }

  lemma FilesInSlotsThroughout(maxUploads: nat, events: seq<Event>)
    requires maxUploads >= 1
    ensures (forall k | 0 <= k <= |events| :: FilesInSlots(Before(maxUploads, events, k).server))
       <==> (forall k | 0 <= k < |events| :: !Overtakes(Before(maxUploads, events, k), events[k]))
  {
    hide FilesInSlots, Overtakes, Step, After;
    var n := |events|;
    var inSlots := (k: nat) => k <= n && FilesInSlots(Before(maxUploads, events, k).server);
    var overtakes := (k: nat) => k < n && Overtakes(Before(maxUploads, events, k), events[k]);
    NothingOpenYet(maxUploads, events);
    forall k: nat | k < n && inSlots(k) ensures inSlots(k + 1) <==> !overtakes(k) {
      BeforeNext(maxUploads, events, k);
      StepKeepsFiles(Before(maxUploads, events, k), events[k]);
    }
    HoldsIffNeverBroken(0, n, inSlots, inSlots, overtakes);
    assert forall k | 0 <= k <= n :: inSlots(k) <==> FilesInSlots(Before(maxUploads, events, k).server);
    assert forall k | 0 <= k < n :: overtakes(k) <==> Overtakes(Before(maxUploads, events, k), events[k]);
  }

  /** Open files, exactly: in every run only served peers ever have a file open, or a
      notification on its way that opens one, if and only if no request overtakes a
      transfer of its own sender. Then the open files never exceed the cap. */
  lemma OpenFilesKeepToSlots(maxUploads: nat, events: seq<Event>)
    requires maxUploads >= 1
    ensures (forall k | 0 <= k <= |events| :: FilesInSlots(Before(maxUploads, events, k).server))
       <==> (forall k | 0 <= k < |events| :: !Overtakes(Before(maxUploads, events, k), events[k]))
    ensures (forall k | 0 <= k < |events| :: !Overtakes(Before(maxUploads, events, k), events[k]))
        ==> |OpenIds(After(maxUploads, events).server.peers)| <= maxUploads
  {
    hide FilesInSlots, Overtakes, After, Before, OpenIds;
    FilesInSlotsThroughout(maxUploads, events);
    if FilesInSlots(Before(maxUploads, events, |events|).server) {
      OpenFilesWithinCap(maxUploads, events);
    }
  }

  lemma NothingOpenYet(maxUploads: nat, events: seq<Event>)
    ensures FilesInSlots(Before(maxUploads, events, 0).server)
  {
    assert events[..0] == [];
  }

  lemma OpenFilesWithinCap(maxUploads: nat, events: seq<Event>)
    requires maxUploads >= 1 && FilesInSlots(Before(maxUploads, events, |events|).server)
    ensures |OpenIds(After(maxUploads, events).server.peers)| <= maxUploads
  {
    hide After;
    assert events[..|events|] == events;
    var s := After(maxUploads, events).server;
    RunKeepsGood(maxUploads, events);
    SubsetSize(OpenIds(s.peers), ActiveIds(s.peers));
  }

  // ----- Vacant slots -----

  /** While somebody waits, at most one slot is vacant. */
  ghost predicate Staffed(s: Server) {
    WaitingIds(s.peers) != {} ==> ActiveCount(s) + 1 >= s.maxUploads
  }

  /** A served peer that asks again, for nothing on offer, while a slot is vacant already:
      its own slot falls vacant too, and nobody is called. */
  ghost predicate Vacates(r: Run, e: Event) {
    var s := r.server;
    && e.Listed? && e.id in ActiveIds(s.peers) && Resolve(e.names, s.shared) == []
    && WaitingIds(s.peers) != {} && ActiveCount(s) < s.maxUploads
  }

  lemma GrowthKeepsStaffed(s: Server, t: Server)
    requires Staffed(s) && SamePeers(s, t) && SlotsGrow(s, t)
    ensures Staffed(t)
  {
    ActiveCountMonotone(s, t);
  }

  /** A departure may vacate one slot more; calling one waiter makes up for it. */
  lemma DetachKeepsStaffed(s: Server, id: SessionId, disk: Disk)
    requires Valid(s) && Staffed(s)
    ensures Staffed(SessionDetached(s, id, disk))
  {
    hide StartNextQueuedPeer, TokensBounded, FilesKept, OpenIds, ActiveIds, FirstWaiting;
    var left, t := Left(s, id), SessionDetached(s, id, disk);
    if id in s.peers {
      RemovedEffect(s, id);
      SubsetSize(ActiveIds(s.peers), ActiveIds(left.peers) + {id});
    }
    StartNextEffect(left, disk);
    WaitersAreFound(left);
    ActiveCountMonotone(left, t);
    if ActiveCount(left) < left.maxUploads && WaitingIds(left.peers) != {} {
      SubsetSize(ActiveIds(left.peers) + {FirstWaiting(left.order, left.peers).value}, ActiveIds(t.peers));
    }
  }

  lemma ListKeepsStaffed(s: Server, id: SessionId, names: seq<string>, mungeMode: Option<int>, disk: Disk)
    requires Valid(s) && Staffed(s) && id in s.peers && ActiveCount(s) <= s.maxUploads
    ensures Staffed(HandleFileList(s, id, names, mungeMode, disk)) <==>
      !(id in ActiveIds(s.peers) && Resolve(names, s.shared) == []
        && WaitingIds(s.peers) != {} && ActiveCount(s) < s.maxUploads)
  {
    hide Recorded, Resolve, BeginAndSend, ActiveIds, WaitingIds, OpenIds, Put, Unqueued, TokensBounded;
    RecordedIsValid(s, id, names, mungeMode);
    RecordedSlots(s, id, names, mungeMode);
    Standing(s, id);
    var t, wanted := HandleFileList(s, id, names, mungeMode, disk), Resolve(names, s.shared);
    SlotsWithout(ActiveIds(s.peers), id);
    if Counted(s, id, wanted) < s.maxUploads {
      AdmittedSlots(s, id, names, mungeMode);
      var u := Unqueued(Recorded(s, id, names, mungeMode), id);
      if wanted == [] {
        NothingBegins(u, id, disk);
      } else {
        BeginAndSendEffect(u, id, disk);
        GrowthKeepsStaffed(u, t);
      }
    } else {
      QueuedSlots(s, id, names, mungeMode);
    }
  }

  lemma SlotsWithout(ids: set<SessionId>, id: SessionId)
    ensures |ids - {id}| == |ids| - if id in ids then 1 else 0
  {
    if id !in ids {
      assert ids - {id} == ids;
    }
  }

  lemma NothingBegins(m: Server, id: SessionId, disk: Disk)
    requires Valid(m) && id in m.peers && m.peers[id].requestedFiles == []
    ensures var t := BeginAndSend(m, id, disk);
      && ActiveIds(t.peers) == ActiveIds(m.peers) && WaitingIds(t.peers) == WaitingIds(m.peers)
      && OpenIds(t.peers) == OpenIds(m.peers) - {id} && t.drains == m.drains
  {
    hide ActiveIds, WaitingIds, SendNextChunk;
    BeginFileEffect(m, id, disk);
  }

  lemma StepKeepsStaffed(r: Run, e: Event)
    requires Good(r) && Staffed(r.server)
    ensures Staffed(Step(r, e).server) <==> !Vacates(r, e)
  {
    hide ActiveIds, WaitingIds, OpenIds, Resolve, HandleFileList, SessionDetached, OutputQueuesDrained, TokensBounded;
    var s := r.server;
    match e
    case Accepted(id) =>
      if id !in r.lists {
        AcceptedIsNew(r, id);
        AcceptedHoldsNoSlot(s, id);
      }
    case Listed(id, names, mungeMode, disk) =>
      if id in s.peers {
        ListKeepsStaffed(s, id, names, mungeMode, disk);
      } else {
        ServedIsPresent(s, id);
      }
    case Drained(id, disk) =>
      if id in s.drains && s.drains[id] > 0 {
        DrainEffect(s, id, disk);
        GrowthKeepsStaffed(s, OutputQueuesDrained(s, id, disk));
      }
    case Detached(id, disk) => DetachKeepsStaffed(s, id, disk);
    case Shared(_) =>
  }

  lemma ServedIsPresent(s: Server, id: SessionId)
    ensures id in ActiveIds(s.peers) ==> id in s.peers
  {
  }

  /** Vacant slots, exactly: in every run at most one slot is ever vacant while somebody
      waits, if and only if no served peer gives its slot up by asking for nothing on offer
      while somebody waits and a slot is vacant already. */
  lemma WaitersFindSlotsInUse(maxUploads: nat, events: seq<Event>)
    requires maxUploads >= 1
    ensures (forall k | 0 <= k <= |events| :: Staffed(Before(maxUploads, events, k).server))
       <==> (forall k | 0 <= k < |events| :: !Vacates(Before(maxUploads, events, k), events[k]))
  {
    hide Staffed, Vacates, Step, After;
    var n := |events|;
    var staffed := (k: nat) => k <= n && Staffed(Before(maxUploads, events, k).server);
    var vacates := (k: nat) => k < n && Vacates(Before(maxUploads, events, k), events[k]);
    NobodyWaitsYet(maxUploads, events);
    forall k: nat | k < n && staffed(k) ensures staffed(k + 1) <==> !vacates(k) {
      BeforeNext(maxUploads, events, k);
      StepKeepsStaffed(Before(maxUploads, events, k), events[k]);
    }
    HoldsIffNeverBroken(0, n, staffed, staffed, vacates);
    assert forall k | 0 <= k <= n :: staffed(k) <==> Staffed(Before(maxUploads, events, k).server);
    assert forall k | 0 <= k < n :: vacates(k) <==> Vacates(Before(maxUploads, events, k), events[k]);
  }

  lemma NobodyWaitsYet(maxUploads: nat, events: seq<Event>)
    ensures Staffed(Before(maxUploads, events, 0).server)
  {
    assert events[..0] == [];
  }

  // ----- One list for each session -----

  lemma ListsGrow(r: Run, e: Event)
    requires Good(r)
    ensures OneListEach(Step(r, e)) ==> OneListEach(r)
  {
    var t := Step(r, e);
    assert forall x | x in r.lists :: x in t.lists && r.lists[x] <= t.lists[x];
  }

  lemma FirstListIsHarmless(r: Run, e: Event)
    requires Good(r) && FilesInSlots(r.server) && OneListEach(Step(r, e))
    ensures !Overtakes(r, e) && !Vacates(r, e)
  {
    hide HandleFileList, Resolve;
    if e.Listed? && e.id in r.server.peers {
      assert Step(r, e).lists[e.id] <= 1;
      assert Tokens(r.server, e.id) == 0;
      assert e.id !in ActiveIds(r.server.peers) && e.id !in OpenIds(r.server.peers);
    }
  }

  lemma {:induction false} OneListKeepsSlots(maxUploads: nat, events: seq<Event>)
    requires maxUploads >= 1 && OneListEach(After(maxUploads, events))
    ensures FilesInSlots(After(maxUploads, events).server) && Staffed(After(maxUploads, events).server)
  {
    if events != [] {
      hide Step, FilesInSlots, Staffed, Overtakes, Vacates, OneListEach, Good;
      var last := |events| - 1;
      var r := After(maxUploads, events[..last]);
      RunKeepsGood(maxUploads, events[..last]);
      ListsGrow(r, events[last]);
      OneListKeepsSlots(maxUploads, events[..last]);
      FirstListIsHarmless(r, events[last]);
      StepKeepsFiles(r, events[last]);
      StepKeepsStaffed(r, events[last]);
    }
  }

  /** The peers being served never exceed the cap, however often anybody asks. If each
      session asks once, neither do the open files, and while a peer that wants files waits
      at most one slot is vacant. */
  lemma SlotsAreCapped(maxUploads: nat, events: seq<Event>)
    requires maxUploads >= 1
    ensures var s := After(maxUploads, events).server;
      && |ActiveIds(s.peers)| <= maxUploads
      && (OneListEach(After(maxUploads, events)) ==>
            && |OpenIds(s.peers)| <= maxUploads
            && (WaitingIds(s.peers) != {} ==> |ActiveIds(s.peers)| >= maxUploads - 1))
  {
    hide After;
    var s := After(maxUploads, events).server;
    RunKeepsGood(maxUploads, events);
    if OneListEach(After(maxUploads, events)) {
      OneListKeepsSlots(maxUploads, events);
      SubsetSize(OpenIds(s.peers), ActiveIds(s.peers));
    }
  }

  // ----- Departures, and who keeps a slot -----

  /** In every run, when a served peer leaves, the earliest-accepted waiter gets a slot. */
  lemma DepartureAdmitsEarliestWaiter(maxUploads: nat, events: seq<Event>, id: SessionId, disk: Disk)
    requires maxUploads >= 1
    ensures var s := After(maxUploads, events).server;
      var t := SessionDetached(s, id, disk);
      id in ActiveIds(s.peers) && WaitingIds(s.peers) != {} ==>
        exists k :: 0 <= k < |s.order| && s.order[k] in WaitingIds(s.peers)
          && (forall j | 0 <= j < k :: s.order[j] !in WaitingIds(s.peers))
          && s.order[k] in ActiveIds(t.peers)
  {
    hide After, StartNextQueuedPeer;
    var s := After(maxUploads, events).server;
    RunKeepsGood(maxUploads, events);
    if id in ActiveIds(s.peers) && WaitingIds(s.peers) != {} {
      EarliestWaiterAdmitted(s, id, disk);
    }
  }

  lemma EarliestWaiterAdmitted(s: Server, id: SessionId, disk: Disk)
    requires Valid(s) && ActiveCount(s) <= s.maxUploads && id in ActiveIds(s.peers) && WaitingIds(s.peers) != {}
    ensures var t := SessionDetached(s, id, disk);
      exists k :: 0 <= k < |s.order| && s.order[k] in WaitingIds(s.peers)
        && (forall j | 0 <= j < k :: s.order[j] !in WaitingIds(s.peers))
        && s.order[k] in ActiveIds(t.peers)
  {
    hide StartNextQueuedPeer, TokensBounded, OpenIds, FilesKept;
    var left := Left(s, id);
    RemovedEffect(s, id);
    StartNextEffect(left, disk);
    WaitersAreFound(left);
    WithoutKeepsFirstWaiting(s.order, s.peers, id);
    OnlyListedPeersMatter(left.order, s.peers, left.peers);
  }

  lemma {:induction false} OnlyListedPeersMatter(order: seq<SessionId>, a: map<SessionId, PeerUpload>,
                                                 b: map<SessionId, PeerUpload>)
    requires forall x | x in order :: x in a && x in b && a[x] == b[x]
    ensures FirstWaiting(order, a) == FirstWaiting(order, b)
  {
    if order != [] {
      OnlyListedPeersMatter(order[1..], a, b);
    }
  }

  lemma {:induction false} WithoutKeepsFirstWaiting(order: seq<SessionId>, peers: map<SessionId, PeerUpload>,
                                                    id: SessionId)
    requires (forall x | x in order :: x in peers) && id in peers && !IsWaiting(peers[id])
    ensures FirstWaiting(Without(order, id), peers) == FirstWaiting(order, peers)
  {
    if order != [] {
      WithoutKeepsFirstWaiting(order[1..], peers, id);
    }
  }

  /** A served peer gives up its slot: it leaves, or it asks again while every slot is in
      use or for nothing on offer. */
  ghost predicate GivesUp(r: Run, e: Event, id: SessionId) {
    var s := r.server;
    || (e.Detached? && e.id == id)
    || (e.Listed? && e.id == id && (Resolve(e.names, s.shared) == [] || ActiveCount(s) >= s.maxUploads))
  }

  lemma StepKeepsServing(r: Run, e: Event, id: SessionId)
    requires Good(r) && id in ActiveIds(r.server.peers)
    ensures id in ActiveIds(Step(r, e).server.peers) <==> !GivesUp(r, e, id)
  {
    hide ActiveIds, WaitingIds, OpenIds, Resolve, HandleFileList, SessionDetached, OutputQueuesDrained, TokensBounded;
    var s := r.server;
    ServedIsPresent(s, id);
    Standing(s, id);
    match e
    case Accepted(x) =>
      if x !in r.lists {
        AcceptedIsNew(r, x);
        AcceptedHoldsNoSlot(s, x);
      }
    case Listed(x, names, mungeMode, disk) =>
      if x == id {
        RequestAdmitted(s, id, names, mungeMode, disk);
        SlotsWithout(ActiveIds(s.peers), id);
      } else if x in s.peers {
        OthersKeepServing(s, x, names, mungeMode, disk);
      }
    case Drained(x, disk) =>
      if x in s.drains && s.drains[x] > 0 {
        DrainEffect(s, x, disk);
      }
    case Detached(x, disk) => DetachKeepsServing(s, x, disk);
    case Shared(_) =>
  }

  lemma OthersKeepServing(s: Server, id: SessionId, names: seq<string>, mungeMode: Option<int>, disk: Disk)
    requires Valid(s) && id in s.peers
    ensures ActiveIds(s.peers) - {id} <= ActiveIds(HandleFileList(s, id, names, mungeMode, disk).peers)
  {
    hide Recorded, Resolve, BeginAndSend, ActiveIds, WaitingIds, OpenIds, Put, Unqueued, TokensBounded;
    RecordedIsValid(s, id, names, mungeMode);
    RecordedSlots(s, id, names, mungeMode);
    AdmittedSlots(s, id, names, mungeMode);
    QueuedSlots(s, id, names, mungeMode);
    BeginAndSendEffect(Unqueued(Recorded(s, id, names, mungeMode), id), id, disk);
  }

  lemma DetachKeepsServing(s: Server, id: SessionId, disk: Disk)
    requires Valid(s)
    ensures var t := SessionDetached(s, id, disk);
      ActiveIds(s.peers) - {id} <= ActiveIds(t.peers) && id !in ActiveIds(t.peers)
  {
    hide StartNextQueuedPeer, TokensBounded, OpenIds, WaitingIds;
    var left := Left(s, id);
    if id in s.peers {
      RemovedEffect(s, id);
    }
    StartNextEffect(left, disk);
  }

  /** Who is served stays served, exactly: from any moment of any run a served peer keeps
      its slot throughout what follows if and only if it neither leaves nor asks again at
      the wrong time. The end of its files frees no slot. */
  lemma ServedUntilGivenUp(maxUploads: nat, events: seq<Event>, i: nat, id: SessionId)
    requires maxUploads >= 1 && i <= |events|
    ensures id in ActiveIds(Before(maxUploads, events, i).server.peers) ==>
      ((forall k | i <= k <= |events| :: id in ActiveIds(Before(maxUploads, events, k).server.peers))
       <==> (forall k | i <= k < |events| :: !GivesUp(Before(maxUploads, events, k), events[k], id)))
  {
    hide GivesUp, Step, After, ActiveIds;
    var n := |events|;
    if id in ActiveIds(Before(maxUploads, events, i).server.peers) {
      var served := (k: nat) => k <= n && id in ActiveIds(Before(maxUploads, events, k).server.peers);
      var givesUp := (k: nat) => k < n && GivesUp(Before(maxUploads, events, k), events[k], id);
      forall k: nat | i <= k < n && served(k) ensures served(k + 1) <==> !givesUp(k) {
        BeforeNext(maxUploads, events, k);
        StepKeepsServing(Before(maxUploads, events, k), events[k], id);
      }
      HoldsIffNeverBroken(i, n, served, served, givesUp);
      assert forall k | i <= k <= n :: served(k) <==> id in ActiveIds(Before(maxUploads, events, k).server.peers);
      assert forall k | i <= k < n :: givesUp(k) <==> GivesUp(Before(maxUploads, events, k), events[k], id);
    }
  }

  // ----- A cap of one -----

  ghost predicate ServesNobody(s: Server) {
    ActiveIds(s.peers) == {} && OpenIds(s.peers) == {}
  }

  /** A peer on the waiting list asks again, for something on offer. */
  predicate AsksWhileWaiting(r: Run, e: Event) {
    && e.Listed? && e.id in r.server.peers && r.server.peers[e.id].isQueued
    && Resolve(e.names, r.server.shared) != []
  }

  /** Nobody has ever been served, so no notification is on its way. */
  ghost predicate Untouched(s: Server) {
    ServesNobody(s) && forall id | id in s.drains :: s.drains[id] == 0
  }

  lemma OneSlotList(s: Server, id: SessionId, names: seq<string>, mungeMode: Option<int>, disk: Disk)
    requires Valid(s) && s.maxUploads == 1 && Untouched(s) && id in s.peers
    ensures var t := HandleFileList(s, id, names, mungeMode, disk);
      if s.peers[id].isQueued && Resolve(names, s.shared) != [] then id in ActiveIds(t.peers) else Untouched(t)
  {
    hide Recorded, Resolve, BeginAndSend, ActiveIds, WaitingIds, OpenIds, Put, Unqueued;
    RecordedIsValid(s, id, names, mungeMode);
    RecordedSlots(s, id, names, mungeMode);
    SlotsWithout(ActiveIds(s.peers), id);
    var wanted := Resolve(names, s.shared);
    RequestAdmitted(s, id, names, mungeMode, disk);
    if Counted(s, id, wanted) < 1 {
      AdmittedSlots(s, id, names, mungeMode);
      if wanted == [] {
        NothingBegins(Unqueued(Recorded(s, id, names, mungeMode), id), id, disk);
      }
    } else {
      QueuedSlots(s, id, names, mungeMode);
    }
  }

  lemma OneSlotStep(r: Run, e: Event)
    requires Good(r) && r.server.maxUploads == 1 && !e.Detached? && Untouched(r.server)
    ensures var s := Step(r, e).server;
      if AsksWhileWaiting(r, e) then !ServesNobody(s) else Untouched(s)
  {
    hide ActiveIds, OpenIds, HandleFileList, Resolve, OutputQueuesDrained;
    match e
    case Accepted(id) =>
      if id !in r.lists {
        AcceptedIsNew(r, id);
        AcceptedHoldsNoSlot(r.server, id);
      }
    case Listed(id, names, mungeMode, disk) =>
      if id in r.server.peers {
        OneSlotList(r.server, id, names, mungeMode, disk);
      }
    case Drained(_, _) =>
    case Shared(_) =>
  }

  /** One slot, exactly: until somebody leaves nobody is served, if and only if no peer
      that waits asks again for something on offer. Asking again it is not counted. */
  lemma OneSlotServesNobody(events: seq<Event>)
    requires forall e | e in events :: !e.Detached?
    ensures (forall k | 0 <= k <= |events| :: ServesNobody(Before(1, events, k).server))
       <==> (forall k | 0 <= k < |events| :: !AsksWhileWaiting(Before(1, events, k), events[k]))
  {
    hide Step, After, ServesNobody, AsksWhileWaiting;
    var n := |events|;
    var untouched := (k: nat) => k <= n && Untouched(Before(1, events, k).server);
    var idle := (k: nat) => k <= n && ServesNobody(Before(1, events, k).server);
    var asks := (k: nat) => k < n && AsksWhileWaiting(Before(1, events, k), events[k]);
    NobodyServedYet(events);
    forall k: nat | k < n && untouched(k) ensures if asks(k) then !idle(k + 1) else untouched(k + 1) {
      BeforeNext(1, events, k);
      OneSlotStep(Before(1, events, k), events[k]);
    }
    HoldsIffNeverBroken(0, n, untouched, idle, asks);
    assert forall k | 0 <= k <= n :: idle(k) <==> ServesNobody(Before(1, events, k).server);
    assert forall k | 0 <= k < n :: asks(k) <==> AsksWhileWaiting(Before(1, events, k), events[k]);
  }

  lemma NobodyServedYet(events: seq<Event>)
    ensures Untouched(Before(1, events, 0).server)
  {
    assert events[..0] == [];
  }
}
