// What a request that overtakes its sender's own transfer leads to: from then on more files
// can be open than there are slots, without any further request of that kind.

module Overtaking {

  import opened Prelude
  import opened TransferProtocol
  import opened UploadServer
  import opened UploadAdmission
  import opened SlotLaws
  import opened SecondRequests

  ghost predicate NoneOvertakes(maxUploads: nat, events: seq<Event>, from: nat) {
    forall k | from <= k < |events| :: !Overtakes(Before(maxUploads, events, k), events[k])
  }

  /** Whatever happens next, short of another request that overtakes, the open files stay
      within the cap. */
  ghost predicate StaysWithinCap(maxUploads: nat, events: seq<Event>) {
    forall more: seq<Event> | NoneOvertakes(maxUploads, events + more, |events|) ::
      |OpenIds(After(maxUploads, events + more).server.peers)| <= maxUploads
  }

  /** The open files and the cap, exactly: at every moment of a run it is certain that they
      stay within the cap, whatever happens short of further such requests, if and only if
      no request of the run overtakes a transfer of its own sender. */
  lemma OpenFilesAreSafe(maxUploads: nat, events: seq<Event>)
    requires maxUploads >= 1
    ensures (forall k | 0 <= k <= |events| :: StaysWithinCap(maxUploads, events[..k]))
       <==> (forall k | 0 <= k < |events| :: !Overtakes(Before(maxUploads, events, k), events[k]))
  {
    hide After, FilesInSlots, Overtakes, Step, StaysWithinCap;
    var n := |events|;
    var inSlots := (k: nat) => k <= n && FilesInSlots(Before(maxUploads, events, k).server);
    var safe := (k: nat) => k <= n && StaysWithinCap(maxUploads, events[..k]);
    var overtakes := (k: nat) => k < n && Overtakes(Before(maxUploads, events, k), events[k]);
    NothingOpenYet(maxUploads, events);
    forall k: nat | k <= n && inSlots(k) ensures safe(k) {
      FilesStaySafe(maxUploads, events[..k]);
    }
    forall k: nat | k < n && inSlots(k) ensures if overtakes(k) then !safe(k + 1) else inSlots(k + 1) {
      BeforeNext(maxUploads, events, k);
      StepKeepsFiles(Before(maxUploads, events, k), events[k]);
      assert events[..k + 1] == events[..k] + [events[k]];
      if overtakes(k) {
        OverrunFollows(maxUploads, events[..k], events[k]);
      }
    }
    HoldsIffNeverBroken(0, n, inSlots, safe, overtakes);
    assert forall k | 0 <= k <= n :: safe(k) <==> StaysWithinCap(maxUploads, events[..k]);
    assert forall k | 0 <= k < n :: overtakes(k) <==> Overtakes(Before(maxUploads, events, k), events[k]);
  }

  lemma FilesStaySafe(maxUploads: nat, events: seq<Event>)
    requires maxUploads >= 1 && FilesInSlots(After(maxUploads, events).server)
    ensures StaysWithinCap(maxUploads, events)
  {
    hide After, FilesInSlots;
    forall more: seq<Event> | NoneOvertakes(maxUploads, events + more, |events|)
      ensures |OpenIds(After(maxUploads, events + more).server.peers)| <= maxUploads
    {
      FilesStayInSlots(maxUploads, events, more);
      assert (events + more)[..|events + more|] == events + more;
      OpenFilesWithinCap(maxUploads, events + more);
    }
  }

  lemma {:induction false} FilesStayInSlots(maxUploads: nat, events: seq<Event>, more: seq<Event>)
    requires maxUploads >= 1 && FilesInSlots(After(maxUploads, events).server)
    requires NoneOvertakes(maxUploads, events + more, |events|)
    ensures FilesInSlots(After(maxUploads, events + more).server)
  {
    hide After, FilesInSlots, Overtakes, Step;
    if more == [] {
      assert events + more == events;
    } else {
      var all, last := events + more, |more| - 1;
      assert all == (events + more[..last]) + [more[last]];
      forall k | |events| <= k < |events + more[..last]|
        ensures !Overtakes(Before(maxUploads, events + more[..last], k), (events + more[..last])[k])
      {
        assert (events + more[..last])[..k] == all[..k] && (events + more[..last])[k] == all[k];
        assert !Overtakes(Before(maxUploads, all, k), all[k]);
      }
      FilesStayInSlots(maxUploads, events, more[..last]);
      assert all[..|all| - 1] == events + more[..last];
      BeforeNext(maxUploads, all, |all| - 1);
      StepKeepsFiles(After(maxUploads, events + more[..last]), more[last]);
      assert all[..|all|] == all;
    }
  }

  // ----- A continuation in which more files are open than there are slots -----

  /** Since start nothing has overtaken, and this is how things stand. */
  ghost predicate Leads(maxUploads: nat, start: seq<Event>, events: seq<Event>, r: Run) {
    start <= events && NoneOvertakes(maxUploads, events, |start|) && After(maxUploads, events) == r
  }

  lemma Onward(maxUploads: nat, start: seq<Event>, events: seq<Event>, r: Run, e: Event)
    returns (next: seq<Event>)
    requires maxUploads >= 1 && Leads(maxUploads, start, events, r) && !Overtakes(r, e)
    ensures Valid(r.server) && Good(r) && Good(Step(r, e))
    ensures r.server.maxUploads == Step(r, e).server.maxUploads == maxUploads
    ensures Leads(maxUploads, start, next, Step(r, e))
  {
    hide After, Overtakes, Step, Good;
    next := events + [e];
    AfterSnoc(maxUploads, events, e);
    RunKeepsGood(maxUploads, events);
    RunKeepsGood(maxUploads, next);
    forall k | |start| <= k < |next| ensures !Overtakes(Before(maxUploads, next, k), next[k]) {
      assert next[..k] == events[..k];
      if k == |events| {
        assert events[..k] == events;
      } else {
        assert next[k] == events[k];
        assert !Overtakes(Before(maxUploads, events, k), events[k]);
      }
    }
  }

  /** A peer on the waiting list with its file open. */
  ghost predicate Stranded(s: Server, x: SessionId) {
    x in s.peers && s.peers[x].isQueued && s.peers[x].currentFile.Some?
  }

  /** One that has no file open yet, but will when the notification arrives. */
  ghost predicate AboutToOpen(s: Server, x: SessionId) {
    && x in s.peers && s.peers[x].isQueued && s.peers[x].currentFile.None? && s.peers[x].requestedFiles != []
    && s.peers[x].nextFileIndex == 0 && x in s.drains && s.drains[x] > 0
  }

  lemma AfterOvertaking(r: Run, e: Event)
    requires Good(r) && Overtakes(r, e)
    ensures e.Listed?
    ensures Stranded(Step(r, e).server, e.id) || AboutToOpen(Step(r, e).server, e.id)
  {
    hide Resolve, ActiveIds, Counted;
    RecordedSlots(r.server, e.id, e.names, e.mungeMode);
  }

  lemma FileOpens(maxUploads: nat, start: seq<Event>, r: Run, x: SessionId) returns (events: seq<Event>, t: Run)
    requires maxUploads >= 1 && Leads(maxUploads, start, start, r) && AboutToOpen(r.server, x)
    ensures Leads(maxUploads, start, events, t) && Stranded(t.server, x)
  {
    hide BeginAndSend, After, Good;
    var disk := map[r.server.peers[x].requestedFiles[0].absolutePath := CONTENTS];
    events := Onward(maxUploads, start, start, r, Drained(x, disk));
    t := Step(r, Drained(x, disk));
    Opening(r.server.(drains := r.server.drains[x := r.server.drains[x] - 1]), x, disk);
  }

  /** A served peer that asks for nothing gives its slot up, and nobody else notices. */
  lemma AskingForNothing(r: Run, y: SessionId, x: SessionId)
    requires Good(r) && y in ActiveIds(r.server.peers) && Stranded(r.server, x)
    ensures var e := Listed(y, [], None, map[]);
      && !Overtakes(r, e) && Stranded(Step(r, e).server, x)
      && ActiveIds(Step(r, e).server.peers) == ActiveIds(r.server.peers) - {y}
  {
    hide Recorded, BeginAndSend, ActiveIds, WaitingIds, OpenIds, Put, Unqueued;
    var s := r.server;
    ServedIsPresent(s, y);
    Standing(s, y);
    SlotsWithout(ActiveIds(s.peers), y);
    RecordedSlots(s, y, [], None);
    RecordedIsValid(s, y, [], None);
    AdmittedSlots(s, y, [], None);
    var u := Unqueued(Recorded(s, y, [], None), y);
    NothingBegins(u, y, map[]);
    OnlyOneBegins(u, y, map[]);
  }

  lemma OnlyOneBegins(u: Server, y: SessionId, disk: Disk)
    requires Valid(u) && y in u.peers && u.peers[y].requestedFiles == []
    ensures var t := BeginAndSend(u, y, disk);
      forall x | x in u.peers && x != y :: x in t.peers && t.peers[x] == u.peers[x]
  {
  }

  lemma {:induction false} SlotsEmptied(maxUploads: nat, start: seq<Event>, before: seq<Event>, r: Run, x: SessionId)
    returns (events: seq<Event>, t: Run)
    requires maxUploads >= 1 && Leads(maxUploads, start, before, r) && Good(r) && Stranded(r.server, x)
    ensures Leads(maxUploads, start, events, t) && Good(t) && Stranded(t.server, x) && ActiveIds(t.server.peers) == {}
    decreases ActiveCount(r.server)
  {
    events, t := before, r;
    if ActiveIds(r.server.peers) != {} {
      hide Step, Leads, Good, ActiveIds, Stranded;
      var y :| y in ActiveIds(r.server.peers);
      var e := Listed(y, [], None, map[]);
      AskingForNothing(r, y, x);
      events := Onward(maxUploads, start, before, r, e);
      SlotsWithout(ActiveIds(r.server.peers), y);
      events, t := SlotsEmptied(maxUploads, start, events, Step(r, e), x);
    }
  }

  lemma {:induction false} Longest(ids: set<SessionId>) returns (id: SessionId)
    ensures forall x | x in ids :: |x| < |id|
  {
    id := "";
    if ids != {} {
      var x :| x in ids;
      id := Longest(ids - {x});
      if |id| <= |x| {
        id := x + "+";
      }
    }
  }

  /** All slots in use are used by peers with a file open, and x has one beside them. */
  ghost predicate Filling(r: Run, x: SessionId, n: nat) {
    var s := r.server;
    && Good(r) && s.shared == SHARED && Stranded(s, x)
    && ActiveCount(s) == n && ActiveIds(s.peers) <= OpenIds(s.peers)
  }

  /** One more record with a file open in a slot. */
  lemma SlotFilled(r: Run, t: Run, x: SessionId, n: nat, id: SessionId, p: PeerUpload)
    requires Filling(r, x, n) && Good(t) && t.server.shared == SHARED
    requires id != x && id !in ActiveIds(r.server.peers)
    requires t.server.peers == r.server.peers[id := p] && IsActive(p) && p.currentFile.Some?
    ensures Filling(t, x, n + 1)
  {
    hide ActiveIds, WaitingIds, Good;
    OneRecordChanged(r.server.peers, id, p);
    var before, now := ActiveIds(r.server.peers), ActiveIds(t.server.peers);
    assert now == before + {id};
    forall y | y in now ensures y in OpenIds(t.server.peers) {
      assert y != id ==> y in OpenIds(r.server.peers);
    }
  }

  const ASKS: seq<string> := ["f"]

  /** A peer with no file open that finds a slot is served. */
  lemma AskingServes(s: Server, id: SessionId)
    requires Valid(s) && s.shared == SHARED && id in s.peers && Counted(s, id, [FILE]) < s.maxUploads
    ensures var t := HandleFileList(s, id, ASKS, None, DISK);
      id in t.peers && IsActive(t.peers[id]) && t.peers[id].currentFile.Some? && t.peers == s.peers[id := t.peers[id]]
  {
    hide BeginAndSend, Resolve, ActiveIds, Counted;
    ResolvesFile();
    RecordedSlots(s, id, ASKS, None);
    var u := Unqueued(Recorded(s, id, ASKS, None), id);
    Opening(u, id, DISK);
  }

  lemma AskingQueues(s: Server, id: SessionId)
    requires Valid(s) && s.shared == SHARED && id in s.peers && Counted(s, id, [FILE]) >= s.maxUploads
    ensures var t := HandleFileList(s, id, ASKS, None, DISK);
      && t.peers == s.peers[id := s.peers[id].(requestedFiles := [FILE], nextFileIndex := 0, isQueued := true)]
      && t.drains == s.drains
  {
    hide BeginAndSend, Resolve, ActiveIds, Counted;
    ResolvesFile();
    RecordedSlots(s, id, ASKS, None);
  }

  /** A newcomer, about whom nothing is under way. */
  ghost predicate Newcomer(r: Run, a: Run, x: SessionId, n: nat, id: SessionId) {
    && Good(a) && a.server.shared == SHARED && a.server.maxUploads == r.server.maxUploads
    && a.server.peers == r.server.peers[id := NEW_PEER] && id in a.lists && id !in r.server.peers
    && id in a.server.drains && a.server.drains[id] == 0 && ActiveIds(a.server.peers) == ActiveIds(r.server.peers)
  }

  lemma Arrives(r: Run, x: SessionId, n: nat, id: SessionId)
    requires Filling(r, x, n) && id !in r.lists && Good(Step(r, Accepted(id)))
    ensures Newcomer(r, Step(r, Accepted(id)), x, n, id) && !Overtakes(r, Accepted(id))
  {
    hide ActiveIds, OpenIds, WaitingIds;
    AcceptedIsNew(r, id);
    AcceptedHoldsNoSlot(r.server, id);
  }

  function Request(id: SessionId): Event { Listed(id, ASKS, None, DISK) }

  /** Whether its first request finds a slot or not, it overtakes nothing. */
  lemma FirstRequest(r: Run, a: Run, x: SessionId, n: nat, id: SessionId)
    requires Filling(r, x, n) && Newcomer(r, a, x, n, id) && Good(Step(a, Request(id)))
    ensures var t := Step(a, Request(id));
      && !Overtakes(a, Request(id))
      && (Counted(a.server, id, [FILE]) < a.server.maxUploads ==> Filling(t, x, n + 1))
  {
    hide ActiveIds, Counted, HandleFileList, Resolve, Good;
    ResolvesFile();
    if Counted(a.server, id, [FILE]) < a.server.maxUploads {
      assert Valid(a.server) by { GoodIsValid(a); }
      AskingServes(a.server, id);
      var t := Step(a, Request(id));
      ServedIsPresent(r.server, id);
      assert t.server.peers == r.server.peers[id := t.server.peers[id]];
      SlotFilled(r, t, x, n, id, t.server.peers[id]);
    }
  }

  lemma GoodIsValid(r: Run)
    requires Good(r)
    ensures Valid(r.server)
  {
  }

  /** If it did not, it waits without being counted. */
  lemma NewcomerQueued(r: Run, a: Run, x: SessionId, n: nat, id: SessionId)
    requires Filling(r, x, n) && Newcomer(r, a, x, n, id) && Valid(a.server)
    requires Counted(a.server, id, [FILE]) >= a.server.maxUploads
    ensures var q := Step(a, Request(id)).server;
      && id in q.peers && q.peers[id].currentFile.None? && id in q.drains && q.drains[id] == 0
      && q.peers == r.server.peers[id := q.peers[id]] && q.shared == SHARED && Counted(q, id, [FILE]) == n
  {
    hide ActiveIds, OpenIds, WaitingIds, HandleFileList, Resolve, Good, Stranded, Valid, Counted;
    AskingQueues(a.server, id);
    var q := Step(a, Request(id)).server;
    CountedWhenQueued(r.server, q, id);
  }

  lemma CountedWhenQueued(s: Server, q: Server, id: SessionId)
    requires id !in s.peers && id in q.peers && q.peers == s.peers[id := q.peers[id]] && q.peers[id].isQueued
    ensures Counted(q, id, [FILE]) == ActiveCount(s)
  {
    hide ActiveIds;
    ServedIsPresent(s, id);
    OneRecordChanged(s.peers, id, q.peers[id]);
    assert ActiveIds(q.peers) - {id} == ActiveIds(s.peers);
  }

  /** So the second one finds a slot. */
  lemma SecondRequest(r: Run, a: Run, x: SessionId, n: nat, id: SessionId)
    requires Filling(r, x, n) && n < r.server.maxUploads && Newcomer(r, a, x, n, id) && Valid(a.server)
    requires Counted(a.server, id, [FILE]) >= a.server.maxUploads
    requires var q := Step(a, Request(id));
      Good(q) && Valid(q.server) && Good(Step(q, Request(id))) && q.server.maxUploads == r.server.maxUploads
    ensures var q := Step(a, Request(id));
      !Overtakes(q, Request(id)) && Filling(Step(q, Request(id)), x, n + 1)
  {
    hide ActiveIds, HandleFileList, Resolve, Good, Counted, Valid;
    ResolvesFile();
    NewcomerQueued(r, a, x, n, id);
    var q := Step(a, Request(id));
    AskingServes(q.server, id);
    var t := Step(q, Request(id));
    ServedIsPresent(r.server, id);
    assert t.server.peers == r.server.peers[id := t.server.peers[id]];
    SlotFilled(r, t, x, n, id, t.server.peers[id]);
  }

  lemma FillsOne(maxUploads: nat, start: seq<Event>, before: seq<Event>, r: Run, x: SessionId, n: nat)
    returns (events: seq<Event>, t: Run)
    requires maxUploads >= 1 && Leads(maxUploads, start, before, r) && Filling(r, x, n)
    requires n < maxUploads == r.server.maxUploads
    ensures Leads(maxUploads, start, events, t) && Filling(t, x, n + 1) && t.server.maxUploads == maxUploads
  {
    hide Leads, Step, Good, Filling, Counted, Overtakes;
    var id := Longest(r.lists.Keys);
    NotARequest(r, Accepted(id));
    events := Onward(maxUploads, start, before, r, Accepted(id));
    var a := Step(r, Accepted(id));
    Arrives(r, x, n, id);
    GoodSteps(a, Request(id));
    FirstRequest(r, a, x, n, id);
    events := Onward(maxUploads, start, events, a, Request(id));
    t := Step(a, Request(id));
    if Counted(a.server, id, [FILE]) >= a.server.maxUploads {
      GoodSteps(t, Request(id));
      SecondRequest(r, a, x, n, id);
      events := Onward(maxUploads, start, events, t, Request(id));
      t := Step(t, Request(id));
    }
  }

  lemma NotARequest(r: Run, e: Event)
    ensures !e.Listed? ==> !Overtakes(r, e)
  {
  }

  lemma GoodSteps(r: Run, e: Event)
    requires Good(r)
    ensures Valid(r.server) && Good(Step(r, e))
  {
    StepKeepsGood(r, e);
  }

  /** Beside x, every slot can be filled with a peer that has a file open. */
  lemma {:induction false} FillsAll(maxUploads: nat, start: seq<Event>, before: seq<Event>, r: Run, x: SessionId,
                                    n: nat) returns (events: seq<Event>, t: Run)
    requires maxUploads >= 1 && Leads(maxUploads, start, before, r) && Filling(r, x, n)
    requires n <= maxUploads == r.server.maxUploads
    ensures Leads(maxUploads, start, events, t) && Filling(t, x, maxUploads)
    decreases maxUploads - n
  {
    hide Leads, Filling;
    events, t := before, r;
    if n < maxUploads {
      events, t := FillsOne(maxUploads, start, events, t, x, n);
      events, t := FillsAll(maxUploads, start, events, t, x, n + 1);
    }
  }

  lemma NothingFilled(r: Run, x: SessionId)
    requires Good(r) && Stranded(r.server, x) && ActiveIds(r.server.peers) == {} && Good(Step(r, Shared(SHARED)))
    ensures Filling(Step(r, Shared(SHARED)), x, 0)
  {
  }

  lemma OneTooMany(r: Run, x: SessionId, n: nat)
    requires Filling(r, x, n)
    ensures |OpenIds(r.server.peers)| > n
  {
    SubsetSize(ActiveIds(r.server.peers) + {x}, OpenIds(r.server.peers));
  }

  lemma OverrunFollows(maxUploads: nat, before: seq<Event>, e: Event)
    requires maxUploads >= 1 && Overtakes(After(maxUploads, before), e)
    ensures !StaysWithinCap(maxUploads, before + [e])
  {
    hide After, Overtakes, Step, Good, Filling, Stranded, AboutToOpen;
    var start := before + [e];
    AfterSnoc(maxUploads, before, e);
    RunKeepsGood(maxUploads, before);
    RunKeepsGood(maxUploads, start);
    AfterOvertaking(After(maxUploads, before), e);
    var events, r := start, After(maxUploads, start);
    if !Stranded(r.server, e.id) {
      events, r := FileOpens(maxUploads, start, r, e.id);
    }
    events, r := Overruns(maxUploads, start, events, r, e.id);
    assert events == start + events[|start|..];
  }

  lemma Overruns(maxUploads: nat, start: seq<Event>, before: seq<Event>, from: Run, x: SessionId)
    returns (events: seq<Event>, r: Run)
    requires maxUploads >= 1 && Leads(maxUploads, start, before, from) && Stranded(from.server, x)
    ensures Leads(maxUploads, start, events, r) && |OpenIds(r.server.peers)| > maxUploads
  {
    hide After, Overtakes, Good, Filling;
    events, r := before, from;
    RunKeepsGood(maxUploads, events);
    events, r := SlotsEmptied(maxUploads, start, events, r, x);
    NotARequest(r, Shared(SHARED));
    events := Onward(maxUploads, start, events, r, Shared(SHARED));
    NothingFilled(r, x);
    r := Step(r, Shared(SHARED));
    events, r := FillsAll(maxUploads, start, events, r, x, 0);
    OneTooMany(r, x, maxUploads);
  }
}
