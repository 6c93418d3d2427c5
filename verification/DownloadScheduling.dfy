// The download manager: a capped first-in-first-out scheduler whose start loop is
// re-entered from the state callbacks of the downloads it starts.

module DownloadScheduling {

  import opened Prelude
  import opened DownloadSession

  type DownloadId = nat

  /** A download waiting for a slot. connects foretells how its one start attempt ends. */
  datatype QueuedStart = QueuedStart(download: DownloadId, connects: bool)

  /** The list the user sees, the state of every download object, and the start queue.
      Identities are never reused. */
  datatype Manager = Manager(
    downloads: seq<DownloadId>,
    states: map<DownloadId, DownloadState>,
    queue: seq<QueuedStart>,
    cap: nat,
    nextId: nat)

  predicate Over(state: DownloadState) { state.Finished? || state.Failed? }

  predicate Runs(state: DownloadState) { !state.Idle? && !Over(state) }

  function RunningIds(m: Manager): set<DownloadId> {
    set id | id in m.downloads && id in m.states && Runs(m.states[id])
  }

  /** _CountRunningDownloads */
  function Running(m: Manager): nat { |RunningIds(m)| }

  function Outcome(connects: bool): DownloadState { if connects then Connecting else Failed }

  /** One turn of the start loop: take the head; start it if it is still listed. */
  function Popped(m: Manager): Manager
    requires m.queue != []
  {
    var q := m.queue[0];
    var rest := m.(queue := m.queue[1..]);
    if q.download in m.downloads then rest.(states := m.states[q.download := Outcome(q.connects)]) else rest
  }

  /** The start loop without callbacks: turns until the queue is empty or the cap reached. */
  function Pump(m: Manager): (r: Manager)
    ensures r.queue == [] || Running(r) >= r.cap
    ensures |r.queue| <= |m.queue|
    decreases |m.queue|
  {
    if m.queue == [] || Running(m) >= m.cap then m else Pump(Popped(m))
  }

  /** A download changes state and calls back: the end of one frees a slot. */
  function StateChanged(m: Manager, id: DownloadId, state: DownloadState): Manager {
    if id !in m.states || m.states[id] == state then m
    else
      var r := m.(states := m.states[id := state]);
      if id in m.downloads && Over(state) then Pump(r) else r
  }

  function AbortOne(m: Manager, id: DownloadId): Manager {
    if id in m.states && Over(m.states[id]) then m else StateChanged(m, id, Failed)
  }

  function AbortFrom(m: Manager, i: nat): Manager
    decreases |m.downloads| - i
  {
    if i >= |m.downloads| then m
    else
      AbortOneKeepsList(m, m.downloads[i]);
      AbortFrom(AbortOne(m, m.downloads[i]), i + 1)
  }

  function WithNewId(m: Manager, connects: bool): Manager {
    m.(downloads := m.downloads + [m.nextId], states := m.states[m.nextId := Idle],
       queue := m.queue + [QueuedStart(m.nextId, connects)], nextId := m.nextId + 1)
  }

  function Enqueued(m: Manager, connects: seq<bool>): Manager
    decreases |connects|
  {
    if connects == [] then m
    else Enqueued(WithNewId(m, connects[0]), connects[1..])
  }

  predicate IsUnfinished(states: map<DownloadId, DownloadState>, id: DownloadId) {
    id in states ==> !Over(states[id])
  }

  /** The listed downloads that are not over, in order. */
  function Unfinished(states: map<DownloadId, DownloadState>, ids: seq<DownloadId>): (r: seq<DownloadId>)
    ensures forall id :: id in r <==> id in ids && IsUnfinished(states, id)
  {
    if ids == [] then []
    else if IsUnfinished(states, ids[0]) then [ids[0]] + Unfinished(states, ids[1..])
    else Unfinished(states, ids[1..])
  }

  function Cleared(m: Manager): Manager {
    m.(downloads := Unfinished(m.states, m.downloads))
  }

  lemma {:induction false} PumpKeepsList(m: Manager)
    ensures Pump(m).downloads == m.downloads && Pump(m).cap == m.cap && Pump(m).nextId == m.nextId
    ensures m.states.Keys <= Pump(m).states.Keys
    decreases |m.queue|
  {
    if m.queue != [] && Running(m) < m.cap {
      PumpKeepsList(Popped(m));
    }
  }

  lemma AbortOneKeepsList(m: Manager, id: DownloadId)
    ensures AbortOne(m, id).downloads == m.downloads && AbortOne(m, id).cap == m.cap
    ensures m.states.Keys <= AbortOne(m, id).states.Keys
  {
    PumpKeepsList(m.(states := m.states[id := Failed]));
  }

  // ----- What the pump does -----

  function PoppedCount(m: Manager): (n: nat)
    ensures n <= |m.queue|
    decreases |m.queue|
  {
    if m.queue == [] || Running(m) >= m.cap then 0 else 1 + PoppedCount(Popped(m))
  }

  /** Starts happen strictly in queue order: a prefix of the queue is taken; whoever in it
      is still listed gets the outcome of its attempt, even if it had been cancelled while
      waiting; everybody else keeps their state. */
  lemma {:induction false} PumpStartsInOrder(m: Manager)
    requires forall i, j | 0 <= i < j < |m.queue| :: m.queue[i].download != m.queue[j].download
    ensures var n := PoppedCount(m);
      && Pump(m).queue == m.queue[n..]
      && (forall i | 0 <= i < n && m.queue[i].download in m.downloads ::
            m.queue[i].download in Pump(m).states
            && Pump(m).states[m.queue[i].download] == Outcome(m.queue[i].connects))
      && (forall id | id in m.states && (forall i | 0 <= i < n :: m.queue[i].download != id) ::
            id in Pump(m).states && Pump(m).states[id] == m.states[id])
    decreases |m.queue|
  {
    if m.queue != [] && Running(m) < m.cap {
      var p := Popped(m);
      PumpStartsInOrder(p);
      PumpKeepsList(p);
      var n := PoppedCount(p);
      assert p.queue[n..] == m.queue[n + 1..];
      assert forall i | 0 <= i < n :: p.queue[i] == m.queue[i + 1];
      assert forall i | 0 <= i < n :: p.queue[i].download != m.queue[0].download;
      var r := Pump(m);
      forall i | 0 <= i < n + 1 && m.queue[i].download in m.downloads
        ensures m.queue[i].download in r.states && r.states[m.queue[i].download] == Outcome(m.queue[i].connects)
      {
        if i > 0 {
          assert p.queue[i - 1] == m.queue[i];
        }
      }
      forall id | id in m.states && (forall i | 0 <= i < n + 1 :: m.queue[i].download != id)
        ensures id in r.states && r.states[id] == m.states[id]
      {
        assert forall i | 0 <= i < n :: p.queue[i].download == m.queue[i + 1].download;
      }
    }
  }

  lemma PoppedRunning(m: Manager)
    requires m.queue != []
    ensures RunningIds(Popped(m)) <= RunningIds(m) + {m.queue[0].download}
    ensures Running(Popped(m)) <= Running(m) + 1
  {
    SubsetSize(RunningIds(Popped(m)), RunningIds(m) + {m.queue[0].download});
  }

  /** However its callbacks nest, the pump never takes the running count past the cap, or
      past where it already was when the cap had been lowered under it. */
  lemma {:induction false} PumpRespectsCap(m: Manager)
    ensures Running(Pump(m)) <= (if Running(m) <= m.cap then m.cap else Running(m))
    decreases |m.queue|
  {
    if m.queue != [] && Running(m) < m.cap {
      PoppedRunning(m);
      PumpRespectsCap(Popped(m));
    }
  }

  // ----- Operations, and what every run of them keeps -----

  datatype Operation =
    | StartDownloads(connects: seq<bool>)            // the sharers that can be reached, grouped
    | DownloadMoves(id: DownloadId, state: DownloadState)
    | AbortDownload(index: nat)
    | AbortAll
    | ClearFinished
    | SetCap(cap: nat)

  function Step(m: Manager, o: Operation): Manager {
    match o
    case StartDownloads(connects) => Pump(Enqueued(m, connects))
    case DownloadMoves(id, state) =>   // only a session that is up changes state by itself
      if id in RunningIds(m) && !state.Idle? then StateChanged(m, id, state) else m
    case AbortDownload(index) => if index < |m.downloads| then AbortOne(m, m.downloads[index]) else m
    case AbortAll => AbortFrom(m, 0)
    case ClearFinished => Cleared(m)
    case SetCap(cap) => m.(cap := if cap > 1 then cap else 1)
  }

  function QueuedIds(m: Manager): set<DownloadId> {
    set q | q in m.queue :: q.download
  }

  ghost predicate Increasing(ids: seq<DownloadId>) {
    forall i, j | 0 <= i < j < |ids| :: ids[i] < ids[j]
  }

  /** List and queue are in order of creation, and the listed downloads from the queue's
      head on are exactly the ones still queued. */
  ghost predicate InOrder(m: Manager) {
    && Increasing(m.downloads)
    && (forall i, j | 0 <= i < j < |m.queue| :: m.queue[i].download < m.queue[j].download)
    && (forall id | id in m.downloads :: id < m.nextId && id in m.states)
    && (forall i | 0 <= i < |m.queue| :: m.queue[i].download < m.nextId && m.queue[i].download in m.states)
    && (m.queue != [] ==> forall id | id in m.downloads && id >= m.queue[0].download :: id in QueuedIds(m))
    && (forall i | 0 <= i < |m.queue| :: !Runs(m.states[m.queue[i].download]))
  }

  ghost predicate Inv(m: Manager) {
    && m.cap >= 1 && InOrder(m)
    && (m.queue != [] ==> Running(m) >= 1)
  }

  lemma PoppedInOrder(m: Manager)
    requires InOrder(m) && m.queue != []
    ensures InOrder(Popped(m))
  {
    var p := Popped(m);
    assert forall i | 0 <= i < |p.queue| :: p.queue[i] == m.queue[i + 1];
    if p.queue != [] {
      forall id | id in p.downloads && id >= p.queue[0].download ensures id in QueuedIds(p) {
        var q :| q in m.queue && q.download == id;
        assert q != m.queue[0];
        assert q in p.queue;
      }
    }
  }

  lemma {:induction false} PumpInOrder(m: Manager)
    requires InOrder(m)
    ensures InOrder(Pump(m))
    decreases |m.queue|
  {
    if m.queue != [] && Running(m) < m.cap {
      PoppedInOrder(m);
      PumpInOrder(Popped(m));
    }
  }

  lemma PumpRestores(m: Manager)
    requires InOrder(m) && m.cap >= 1
    ensures Inv(Pump(m))
  {
    PumpInOrder(m);
    PumpKeepsList(m);
  }

  /** A download that is not queued, and everything listed before it, is beyond the reach
      of the pump. */
  lemma PumpLeavesEarlier(m: Manager, id: DownloadId)
    requires InOrder(m) && id in m.states && (m.queue != [] ==> id < m.queue[0].download)
    ensures id in Pump(m).states && Pump(m).states[id] == m.states[id]
  {
    PumpStartsInOrder(m);
    assert forall i | 0 <= i < |m.queue| :: m.queue[i].download >= m.queue[0].download;
  }

  lemma EndedInOrder(m: Manager, id: DownloadId, state: DownloadState)
    requires InOrder(m) && id in m.states && Over(state)
    ensures InOrder(m.(states := m.states[id := state]))
  {
  }

  lemma MovedKeepsInv(m: Manager, id: DownloadId, state: DownloadState)
    requires Inv(m) && id in RunningIds(m) && !state.Idle?
    ensures Inv(StateChanged(m, id, state))
  {
    var r := m.(states := m.states[id := state]);
    if Over(state) {
      EndedInOrder(m, id, state);
      PumpRestores(r);
    } else {
      assert forall q | q in m.queue :: q.download != id;
      assert RunningIds(r) == RunningIds(m);
    }
  }

  lemma AbortOneKeepsInv(m: Manager, id: DownloadId)
    requires Inv(m) && id in m.downloads
    ensures Inv(AbortOne(m, id))
  {
    if !Over(m.states[id]) {
      EndedInOrder(m, id, Failed);
      PumpRestores(m.(states := m.states[id := Failed]));
    }
  }

  lemma NewIdIsQueued(m: Manager, connects: bool)
    ensures QueuedIds(WithNewId(m, connects)) == QueuedIds(m) + {m.nextId}
  {
    var next := WithNewId(m, connects);
    assert next.queue[|m.queue|].download == m.nextId;
    assert forall q | q in m.queue :: q in next.queue;
  }

  lemma NewIdInOrder(m: Manager, connects: bool)
    requires InOrder(m)
    ensures InOrder(WithNewId(m, connects)) && RunningIds(WithNewId(m, connects)) == RunningIds(m)
  {
    hide QueuedIds;
    NewIdIsQueued(m, connects);
    assert forall i | 0 <= i < |m.downloads| :: m.downloads[i] in m.downloads;
    assert m.nextId !in m.downloads;
    assert Increasing(WithNewId(m, connects).downloads);
  }

  lemma {:induction false} EnqueuedInOrder(m: Manager, connects: seq<bool>)
    requires InOrder(m)
    ensures InOrder(Enqueued(m, connects)) && Enqueued(m, connects).cap == m.cap
    ensures RunningIds(Enqueued(m, connects)) == RunningIds(m)
    decreases |connects|
  {
    hide InOrder, RunningIds;
    if connects != [] {
      NewIdInOrder(m, connects[0]);
      EnqueuedInOrder(WithNewId(m, connects[0]), connects[1..]);
    }
  }

  lemma {:induction false} UnfinishedInOrder(states: map<DownloadId, DownloadState>, ids: seq<DownloadId>)
    requires Increasing(ids)
    ensures Increasing(Unfinished(states, ids))
  {
    if ids != [] {
      UnfinishedInOrder(states, ids[1..]);
      var rest := Unfinished(states, ids[1..]);
      forall j | 0 <= j < |rest| ensures ids[0] < rest[j] {
        assert rest[j] in ids[1..];
      }
      if IsUnfinished(states, ids[0]) {
        assert Increasing([ids[0]] + rest);
      }
    }
  }

  lemma ClearedKeepsInv(m: Manager)
    requires Inv(m)
    ensures Inv(Cleared(m)) && RunningIds(Cleared(m)) == RunningIds(m)
  {
    UnfinishedInOrder(m.states, m.downloads);
    assert QueuedIds(Cleared(m)) == QueuedIds(m);
    assert RunningIds(Cleared(m)) == RunningIds(m);
  }

  // ----- Aborting everything -----

  ghost predicate OverBefore(m: Manager, i: nat) {
    forall j | 0 <= j < i && j < |m.downloads| :: m.downloads[j] in m.states && Over(m.states[m.downloads[j]])
  }

  /** While the queue is not empty something runs, and it is listed before everything
      that is queued: so the download to be aborted next is not in the queue. */
  lemma NextIsNotQueued(m: Manager, i: nat)
    requires Inv(m) && i < |m.downloads| && OverBefore(m, i) && m.queue != []
    ensures m.downloads[i] < m.queue[0].download
  {
    assert RunningIds(m) != {};
    var id :| id in RunningIds(m);
    var k :| 0 <= k < |m.downloads| && m.downloads[k] == id;
    assert k >= i;
    assert id < m.queue[0].download;
  }

  lemma AbortAtAdvances(m: Manager, i: nat)
    requires Inv(m) && i < |m.downloads| && OverBefore(m, i)
    ensures var r := AbortOne(m, m.downloads[i]);
      Inv(r) && r.downloads == m.downloads && OverBefore(r, i + 1)
  {
    var id := m.downloads[i];
    AbortOneKeepsInv(m, id);
    AbortOneKeepsList(m, id);
    if !Over(m.states[id]) {
      var ended := m.(states := m.states[id := Failed]);
      EndedInOrder(m, id, Failed);
      if m.queue != [] {
        NextIsNotQueued(m, i);
      }
      forall j | 0 <= j < i + 1
        ensures m.downloads[j] in Pump(ended).states && Over(Pump(ended).states[m.downloads[j]])
      {
        PumpLeavesEarlier(ended, m.downloads[j]);
      }
    }
  }

  lemma {:induction false} AbortFromQuiesces(m: Manager, i: nat)
    requires Inv(m) && i <= |m.downloads| && OverBefore(m, i)
    ensures var r := AbortFrom(m, i);
      Inv(r) && r.downloads == m.downloads && OverBefore(r, |r.downloads|) && r.queue == []
    decreases |m.downloads| - i
  {
    if i < |m.downloads| {
      AbortAtAdvances(m, i);
      AbortFromQuiesces(AbortOne(m, m.downloads[i]), i + 1);
    } else {
      assert RunningIds(m) == {};
    }
  }

  // ----- Every run -----

  lemma StepKeepsInv(m: Manager, o: Operation)
    requires Inv(m)
    ensures Inv(Step(m, o))
  {
    match o
    case StartDownloads(connects) =>
      EnqueuedInOrder(m, connects);
      PumpRestores(Enqueued(m, connects));
    case DownloadMoves(id, state) =>
      if id in RunningIds(m) && !state.Idle? {
        MovedKeepsInv(m, id, state);
      }
    case AbortDownload(index) =>
      if index < |m.downloads| {
        AbortOneKeepsInv(m, m.downloads[index]);
      }
    case AbortAll => AbortFromQuiesces(m, 0);
    case ClearFinished => ClearedKeepsInv(m);
    case SetCap(_) =>
  }

  function Empty(cap: nat): Manager { Manager([], map[], [], cap, 0) }

  ghost function After(cap: nat, operations: seq<Operation>): (m: Manager)
    requires cap >= 1
    ensures Inv(m)
  {
    if operations == [] then Empty(cap)
    else
      var last := |operations| - 1;
      StepKeepsInv(After(cap, operations[..last]), operations[last]);
      Step(After(cap, operations[..last]), operations[last])
  }

  /** AbortAll quiesces, whatever happened before: although every abort re-enters the start
      loop and may start downloads that were waiting, at the end every listed download is
      over and nothing is left to start. */
  lemma AbortAllQuiesces(cap: nat, operations: seq<Operation>)
    requires cap >= 1
    ensures var m := Step(After(cap, operations), AbortAll);
      && m.queue == [] && RunningIds(m) == {}
      && m.downloads == After(cap, operations).downloads
      && forall id | id in m.downloads :: id in m.states && Over(m.states[id])
  {
    var before := After(cap, operations);
    AbortFromQuiesces(before, 0);
    var m := Step(before, AbortAll);
    forall id | id in m.downloads ensures id in m.states && Over(m.states[id]) {
      var k :| 0 <= k < |m.downloads| && m.downloads[k] == id;
    }
  }

  ghost predicate IsTail(m: Manager, k: nat)
  {
    && k <= |m.downloads|
    && (forall i | 0 <= i < k :: m.downloads[i] !in QueuedIds(m))
    && (forall i | k <= i < |m.downloads| ::
          m.downloads[i] in QueuedIds(m) && m.downloads[i] in m.states && !Runs(m.states[m.downloads[i]]))
  }

  /** In every run the listed downloads still queued are a tail of the list, and nothing
      queued is running. */
  lemma QueuedAreTail(cap: nat, operations: seq<Operation>)
    requires cap >= 1
    ensures exists k: nat :: IsTail(After(cap, operations), k)
  {
    var m := After(cap, operations);
    var k := FirstFrom(m.downloads, if m.queue == [] then m.nextId else m.queue[0].download);
    forall i | 0 <= i < |m.downloads|
      ensures i < k ==> m.downloads[i] !in QueuedIds(m)
      ensures k <= i ==>
        m.downloads[i] in QueuedIds(m) && m.downloads[i] in m.states && !Runs(m.states[m.downloads[i]])
    {
      assert m.downloads[i] in m.downloads;
      QueueBounds(m, m.downloads[i]);
    }
    assert IsTail(m, k);
  }

  lemma QueueBounds(m: Manager, id: DownloadId)
    requires InOrder(m) && id in m.downloads
    ensures id in QueuedIds(m) <==> m.queue != [] && id >= m.queue[0].download
    ensures id in QueuedIds(m) ==> !Runs(m.states[id])
  {
    if id in QueuedIds(m) {
      var k :| 0 <= k < |m.queue| && m.queue[k].download == id;
    }
  }

  function FirstFrom(s: seq<DownloadId>, bound: nat): (k: nat)
    requires Increasing(s)
    ensures k <= |s| && (forall i | 0 <= i < k :: s[i] < bound) && (forall i | k <= i < |s| :: s[i] >= bound)
  {
    if s == [] || s[|s| - 1] < bound then |s| else FirstFrom(s[..|s| - 1], bound)
  }

  // ----- The cap -----

  lemma AbortOneRespectsCap(m: Manager, id: DownloadId)
    ensures Running(AbortOne(m, id)) <= (if Running(m) <= m.cap then m.cap else Running(m))
  {
    var ended := m.(states := m.states[id := Failed]);
    SubsetSize(RunningIds(ended), RunningIds(m));
    PumpRespectsCap(ended);
  }

  lemma {:induction false} AbortFromRespectsCap(m: Manager, i: nat)
    ensures Running(AbortFrom(m, i)) <= (if Running(m) <= m.cap then m.cap else Running(m))
    ensures AbortFrom(m, i).cap == m.cap
    decreases |m.downloads| - i
  {
    if i < |m.downloads| {
      AbortOneKeepsList(m, m.downloads[i]);
      AbortOneRespectsCap(m, m.downloads[i]);
      AbortFromRespectsCap(AbortOne(m, m.downloads[i]), i + 1);
    }
  }

  /** No operation takes the number of running downloads past the cap, or past what it was
      if the cap had been lowered below it. */
  lemma OperationsRespectCap(m: Manager, o: Operation)
    requires Inv(m)
    ensures var r := Step(m, o);
      Running(r) <= (if Running(m) <= r.cap then r.cap else Running(m))
  {
    match o
    case StartDownloads(connects) =>
      EnqueuedInOrder(m, connects);
      PumpRespectsCap(Enqueued(m, connects));
      PumpKeepsList(Enqueued(m, connects));
    case DownloadMoves(id, state) =>
      var r := m.(states := m.states[id := state]);
      if id in RunningIds(m) {
        SubsetSize(RunningIds(r), RunningIds(m));
        PumpRespectsCap(r);
        PumpKeepsList(r);
      }
    case AbortDownload(index) =>
      if index < |m.downloads| {
        AbortOneRespectsCap(m, m.downloads[index]);
        AbortOneKeepsList(m, m.downloads[index]);
      }
    case AbortAll => AbortFromRespectsCap(m, 0);
    case ClearFinished => ClearedKeepsInv(m);
    case SetCap(_) =>
  }

  ghost predicate FullWhileWaiting(m: Manager) {
    m.queue != [] ==> Running(m) >= m.cap
  }

  /** While the cap is not changed, downloads only ever wait when every slot is in use. */
  lemma {:induction false} WaitingMeansFull(cap: nat, operations: seq<Operation>)
    requires cap >= 1 && forall o | o in operations :: !o.SetCap?
    ensures FullWhileWaiting(After(cap, operations))
  {
    if operations != [] {
      var last := |operations| - 1;
      var m := After(cap, operations[..last]);
      var o := operations[last];
      assert o in operations;
      WaitingMeansFull(cap, operations[..last]);
      StepStaysFull(m, o);
    }
  }

  lemma StepStaysFull(m: Manager, o: Operation)
    requires Inv(m) && FullWhileWaiting(m) && !o.SetCap?
    ensures FullWhileWaiting(Step(m, o))
  {
    match o
    case StartDownloads(_) =>
    case DownloadMoves(id, state) =>
      if id in RunningIds(m) && !Over(state) && !state.Idle? {
        assert RunningIds(m.(states := m.states[id := state])) == RunningIds(m);
      }
    case AbortDownload(_) =>
    case AbortAll => AbortFromQuiesces(m, 0);
    case ClearFinished => ClearedKeepsInv(m);
  }

  // ----- Whose turn comes -----

  lemma {:induction false} PumpLeavesUnlisted(m: Manager, id: DownloadId)
    requires id in m.states && id !in m.downloads
    ensures id in Pump(m).states && Pump(m).states[id] == m.states[id]
    decreases |m.queue|
  {
    if m.queue != [] && Running(m) < m.cap {
      PumpLeavesUnlisted(Popped(m), id);
    }
  }

  /** A download that the start loop takes off the queue gets the outcome of its one start
      attempt if it is listed, and keeps its state if it is not. */
  lemma PumpTurn(m: Manager, i: nat)
    requires InOrder(m) && i < |m.queue| && m.queue[i].download !in QueuedIds(Pump(m))
    ensures var q, r := m.queue[i], Pump(m);
      && q.download in r.states
      && r.states[q.download] == if q.download in m.downloads then Outcome(q.connects) else m.states[q.download]
  {
    PumpStartsInOrder(m);
    var n, q := PoppedCount(m), m.queue[i];
    forall j | n <= j < |m.queue| ensures m.queue[j].download in QueuedIds(Pump(m)) {
      assert Pump(m).queue[j - n] == m.queue[j];
    }
    if q.download !in m.downloads {
      PumpLeavesUnlisted(m, q.download);
    }
  }

  lemma {:induction false} AbortFromLeavesUnlisted(m: Manager, i: nat, id: DownloadId)
    requires id in m.states && id !in m.downloads
    ensures id in AbortFrom(m, i).states && AbortFrom(m, i).states[id] == m.states[id]
    decreases |m.downloads| - i
  {
    if i < |m.downloads| {
      var next := m.downloads[i];
      AbortOneKeepsList(m, next);
      if next in m.states && !Over(m.states[next]) && m.states[next] != Failed {
        PumpLeavesUnlisted(m.(states := m.states[next := Failed]), id);
      }
      AbortFromLeavesUnlisted(AbortOne(m, next), i + 1, id);
    }
  }

  lemma {:induction false} EnqueuedKeepsQueue(m: Manager, connects: seq<bool>)
    requires InOrder(m)
    ensures m.queue <= Enqueued(m, connects).queue && m.downloads <= Enqueued(m, connects).downloads
    ensures forall id | id in m.states && id < m.nextId ::
      id in Enqueued(m, connects).states && Enqueued(m, connects).states[id] == m.states[id]
    ensures forall id | id in Enqueued(m, connects).downloads :: id in m.downloads || id >= m.nextId
    decreases |connects|
  {
    if connects != [] {
      var next := WithNewId(m, connects[0]);
      EnqueuedInOrder(m, [connects[0]]);
      assert [connects[0]][1..] == [];
      assert Enqueued(m, [connects[0]]) == next;
      EnqueuedKeepsQueue(next, connects[1..]);
    }
  }

  /** What becomes of a waiting download when an operation takes it off the queue. */
  ghost predicate TurnTaken(m: Manager, o: Operation, r: Manager, q: QueuedStart) {
    var id := q.download;
    id in m.states && id in r.states &&
      if id !in r.downloads then r.states[id] == m.states[id]
      else if o.AbortAll? then Over(r.states[id])
      else r.states[id] == Outcome(q.connects)
  }

  lemma TurnIsTaken(m: Manager, o: Operation, i: nat)
    requires Inv(m) && i < |m.queue| && m.queue[i].download !in QueuedIds(Step(m, o))
    ensures TurnTaken(m, o, Step(m, o), m.queue[i])
  {
    var q := m.queue[i];
    assert q in m.queue && q.download in QueuedIds(m);
    match o
    case StartDownloads(connects) =>
      var e := Enqueued(m, connects);
      EnqueuedInOrder(m, connects);
      EnqueuedKeepsQueue(m, connects);
      PumpKeepsList(e);
      PumpTurn(e, i);
    case DownloadMoves(id, state) =>
      if id in RunningIds(m) && Over(state) {
        MovedTurn(m, id, state, i);
      }
    case AbortDownload(index) =>
      if index < |m.downloads| && !Over(m.states[m.downloads[index]]) {
        MovedTurn(m, m.downloads[index], Failed, i);
      }
    case AbortAll =>
      AbortFromQuiesces(m, 0);
      if q.download in m.downloads {
        var r := Step(m, o);
        var k :| 0 <= k < |r.downloads| && r.downloads[k] == q.download;
      } else {
        AbortFromLeavesUnlisted(m, 0, q.download);
      }
    case ClearFinished =>
    case SetCap(_) =>
  }

  lemma MovedTurn(m: Manager, id: DownloadId, state: DownloadState, i: nat)
    requires InOrder(m) && id in m.downloads && Over(state) && i < |m.queue|
    requires m.queue[i].download !in QueuedIds(Pump(m.(states := m.states[id := state])))
    ensures var q, r := m.queue[i], Pump(m.(states := m.states[id := state]));
      && q.download in r.states && r.downloads == m.downloads
      && r.states[q.download] == if q.download in m.downloads then Outcome(q.connects) else m.states[q.download]
  {
    var ended := m.(states := m.states[id := state]);
    EndedInOrder(m, id, state);
    PumpTurn(ended, i);
    PumpKeepsList(ended);
  }

  /** In every run, a waiting download whose turn comes in the next operation is started if
      and only if it is still listed, cancelled or not: one whose peer answers is connecting
      afterwards exactly then. Aborting everything ends it at once again. */
  lemma ListedTurnsAreStarted(cap: nat, operations: seq<Operation>, o: Operation, i: nat)
    requires cap >= 1
    ensures var m := After(cap, operations);
      var r := Step(m, o);
      i < |m.queue| && m.queue[i].download !in QueuedIds(r) ==>
        && TurnTaken(m, o, r, m.queue[i])
        && (m.queue[i].connects && !o.AbortAll? ==>
              (r.states[m.queue[i].download].Connecting? <==> m.queue[i].download in r.downloads))
        && (!m.queue[i].connects && m.queue[i].download in r.downloads ==>
              Over(r.states[m.queue[i].download]))
  {
    var m := After(cap, operations);
    if i < |m.queue| && m.queue[i].download !in QueuedIds(Step(m, o)) {
      hide Step;
      TurnIsTaken(m, o, i);
      assert !Runs(m.states[m.queue[i].download]);
    }
  }

  /** One slot, two downloads. The second is cancelled while it waits, and is failed; it
      stays queued, and when the first one ends it is started. */
  lemma CancelledWhileQueuedIsStarted()
    ensures var cancelled := After(1, [StartDownloads([true, true]), AbortDownload(1)]);
      var r := Step(cancelled, AbortDownload(0));
      && cancelled.downloads == [0, 1] && 1 in cancelled.states && cancelled.states[1] == Failed
      && cancelled.queue == [QueuedStart(1, true)]
      && r.downloads == [0, 1] && 1 in r.states && r.states[1] == Connecting
  {
    var operations := [StartDownloads([true, true]), AbortDownload(1)];
    assert operations[..1] == [StartDownloads([true, true])] && operations[..1][..0] == [];
    hide Step;
    FirstStarts();
    SecondCancelled();
    FirstCancelled();
    assert After(1, operations[..1]) == Step(Empty(1), StartDownloads([true, true]));
    assert After(1, operations) == Step(After(1, operations[..1]), AbortDownload(1));
  }

  const ONE_RUNS: Manager := Manager([0, 1], map[0 := Connecting, 1 := Idle], [QueuedStart(1, true)], 1, 2)

  const ONE_CANCELLED: Manager := ONE_RUNS.(states := map[0 := Connecting, 1 := Failed])

  lemma FirstStarts()
    ensures Step(Empty(1), StartDownloads([true, true])) == ONE_RUNS
  {
    var asked := Manager([0, 1], map[0 := Idle, 1 := Idle], [QueuedStart(0, true), QueuedStart(1, true)], 1, 2);
    TwoAsked(asked);
    hide Enqueued;
    assert RunningIds(asked) == {};
    assert asked.states[0 := Connecting] == ONE_RUNS.states && asked.queue[1..] == ONE_RUNS.queue;
    assert Popped(asked) == ONE_RUNS;
    assert RunningIds(ONE_RUNS) == {0};
    assert Pump(ONE_RUNS) == ONE_RUNS;
  }

  lemma SecondCancelled()
    ensures Step(ONE_RUNS, AbortDownload(1)) == ONE_CANCELLED
  {
    assert ONE_RUNS.states[1 := Failed] == ONE_CANCELLED.states;
    assert RunningIds(ONE_CANCELLED) == {0};
    assert Pump(ONE_CANCELLED) == ONE_CANCELLED;
  }

  lemma FirstCancelled()
    ensures Step(ONE_CANCELLED, AbortDownload(0))
         == ONE_CANCELLED.(states := map[0 := Failed, 1 := Connecting], queue := [])
  {
    var ended := ONE_CANCELLED.(states := map[0 := Failed, 1 := Failed]);
    var next := ended.(states := map[0 := Failed, 1 := Connecting], queue := []);
    assert ONE_CANCELLED.states[0 := Failed] == ended.states && ended.states[1 := Connecting] == next.states;
    assert RunningIds(ended) == {} && Popped(ended) == next;
    assert Pump(next) == next;
    assert Pump(ended) == Pump(Popped(ended));
  }

  lemma TwoAsked(asked: Manager)
    requires asked == Manager([0, 1], map[0 := Idle, 1 := Idle], [QueuedStart(0, true), QueuedStart(1, true)], 1, 2)
    ensures Enqueued(Empty(1), [true, true]) == asked
  {
    var one := Manager([0], map[0 := Idle], [QueuedStart(0, true)], 1, 1);
    assert [true, true][1..] == [true] && [true][1..] == [];
    assert Enqueued(asked, []) == asked;
    assert [0] + [1] == asked.downloads && map[0 := Idle][1 := Idle] == asked.states;
    assert [QueuedStart(0, true)] + [QueuedStart(1, true)] == asked.queue;
    assert Enqueued(one, [true]) == asked;
    assert [] + [0] == [0] && [] + [QueuedStart(0, true)] == [QueuedStart(0, true)];
    assert Enqueued(Empty(1), [true, true]) == Enqueued(one, [true]);
  }

  // ----- Clearing, and the cap -----

  /** In every run, clearing takes exactly the downloads that are over off the list and
      leaves the others in order; no download changes its state, and nothing is started. */
  lemma ClearingTakesTheFinished(cap: nat, operations: seq<Operation>)
    requires cap >= 1
    ensures var m := After(cap, operations);
      var r := Step(m, ClearFinished);
      && (forall id :: id in r.downloads <==> id in m.downloads && !(id in m.states && Over(m.states[id])))
      && (forall i, j | 0 <= i < j < |r.downloads| :: r.downloads[i] < r.downloads[j])
      && (forall i, j | 0 <= i < j < |m.downloads| :: m.downloads[i] < m.downloads[j])
      && r.states == m.states && r.queue == m.queue && r.cap == m.cap
  {
    hide After;
    var m := After(cap, operations);
    StepKeepsInv(m, ClearFinished);
  }

  /** The cap asked for last, and never less than one. */
  function LastCap(cap: nat, operations: seq<Operation>): nat {
    if operations == [] then cap
    else
      var o := operations[|operations| - 1];
      if !o.SetCap? then LastCap(cap, operations[..|operations| - 1]) else if o.cap == 0 then 1 else o.cap
  }

  lemma {:induction false} CapIsAsSetLast(cap: nat, operations: seq<Operation>)
    requires cap >= 1
    ensures After(cap, operations).cap == LastCap(cap, operations)
  {
    if operations != [] {
      var last := |operations| - 1;
      CapIsAsSetLast(cap, operations[..last]);
      StepSetsCap(After(cap, operations[..last]), operations[last]);
    }
  }

  lemma StepSetsCap(m: Manager, o: Operation)
    ensures Step(m, o).cap == if !o.SetCap? then m.cap else if o.cap == 0 then 1 else o.cap
  {
    match o
    case StartDownloads(connects) =>
      PumpKeepsList(Enqueued(m, connects));
      EnqueuedKeepsCap(m, connects);
    case DownloadMoves(id, state) => PumpKeepsList(m.(states := m.states[id := state]));
    case AbortDownload(index) =>
      if index < |m.downloads| {
        AbortOneKeepsList(m, m.downloads[index]);
      }
    case AbortAll => AbortFromKeepsCap(m, 0);
    case ClearFinished =>
    case SetCap(_) =>
  }

  lemma {:induction false} EnqueuedKeepsCap(m: Manager, connects: seq<bool>)
    ensures Enqueued(m, connects).cap == m.cap
    decreases |connects|
  {
    if connects != [] {
      EnqueuedKeepsCap(WithNewId(m, connects[0]), connects[1..]);
    }
  }

  lemma {:induction false} AbortFromKeepsCap(m: Manager, i: nat)
    ensures AbortFrom(m, i).cap == m.cap
    decreases |m.downloads| - i
  {
    if i < |m.downloads| {
      AbortOneKeepsList(m, m.downloads[i]);
      AbortFromKeepsCap(AbortOne(m, m.downloads[i]), i + 1);
    }
  }

  // ----- Nobody gets a second turn -----

  ghost predicate Taken(m: Manager, id: DownloadId) {
    id in m.states && id < m.nextId && id !in QueuedIds(m)
  }

  /** Still off the queue, and if it was over, over in the same way. */
  ghost predicate StaysTaken(m: Manager, r: Manager, id: DownloadId)
    requires id in m.states
  {
    Taken(r, id) && (Over(m.states[id]) ==> r.states[id] == m.states[id])
  }

  lemma {:induction false} PumpLeavesTaken(m: Manager, id: DownloadId)
    requires Taken(m, id)
    ensures Taken(Pump(m), id) && Pump(m).states[id] == m.states[id]
    decreases |m.queue|
  {
    if m.queue != [] && Running(m) < m.cap {
      assert m.queue[0].download in QueuedIds(m);
      assert forall q | q in Popped(m).queue :: q in m.queue;
      PumpLeavesTaken(Popped(m), id);
    }
  }

  lemma ChangeLeavesTaken(m: Manager, id: DownloadId, state: DownloadState, x: DownloadId)
    requires Taken(m, x) && (x == id ==> !Over(m.states[id]))
    ensures StaysTaken(m, StateChanged(m, id, state), x)
  {
    if id in m.states {
      var changed := m.(states := m.states[id := state]);
      assert QueuedIds(changed) == QueuedIds(m);
      PumpLeavesTaken(changed, x);
    }
  }

  lemma {:induction false} AbortFromLeavesTaken(m: Manager, i: nat, x: DownloadId)
    requires Taken(m, x)
    ensures StaysTaken(m, AbortFrom(m, i), x)
    decreases |m.downloads| - i
  {
    if i < |m.downloads| {
      var next := AbortOne(m, m.downloads[i]);
      AbortOneKeepsList(m, m.downloads[i]);
      if next != m {
        ChangeLeavesTaken(m, m.downloads[i], Failed, x);
      }
      AbortFromLeavesTaken(next, i + 1, x);
    }
  }

  lemma {:induction false} EnqueuedLeavesTaken(m: Manager, connects: seq<bool>, x: DownloadId)
    requires Taken(m, x)
    ensures Taken(Enqueued(m, connects), x) && Enqueued(m, connects).states[x] == m.states[x]
    decreases |connects|
  {
    if connects != [] {
      var next := WithNewId(m, connects[0]);
      assert forall q | q in next.queue :: q in m.queue || q.download == m.nextId;
      EnqueuedLeavesTaken(next, connects[1..], x);
    }
  }

  lemma StepLeavesTaken(m: Manager, o: Operation, x: DownloadId)
    requires Taken(m, x)
    ensures StaysTaken(m, Step(m, o), x)
  {
    match o
    case StartDownloads(connects) =>
      EnqueuedLeavesTaken(m, connects, x);
      PumpLeavesTaken(Enqueued(m, connects), x);
    case DownloadMoves(id, state) =>
      if Step(m, o) != m {
        ChangeLeavesTaken(m, id, state, x);
      }
    case AbortDownload(index) =>
      if Step(m, o) != m {
        ChangeLeavesTaken(m, m.downloads[index], Failed, x);
      }
    case AbortAll => AbortFromLeavesTaken(m, 0, x);
    case ClearFinished => assert QueuedIds(Cleared(m)) == QueuedIds(m);
    case SetCap(_) => assert QueuedIds(Step(m, o)) == QueuedIds(m);
  }

  /** A download has one turn at most: once off the queue it never comes back to it, and
      once it is over as well it stays as it is, in every continuation of every run. */
  lemma {:induction false} StartedAtMostOnce(cap: nat, operations: seq<Operation>, more: seq<Operation>,
                                             id: DownloadId)
    requires cap >= 1
    ensures var m, r := After(cap, operations), After(cap, operations + more);
      Taken(m, id) ==> StaysTaken(m, r, id)
  {
    if more == [] {
      assert operations + more == operations;
    } else {
      hide Step;
      var last := |more| - 1;
      assert (operations + more)[..|operations + more| - 1] == operations + more[..last];
      StartedAtMostOnce(cap, operations, more[..last], id);
      if Taken(After(cap, operations), id) {
        StepLeavesTaken(After(cap, operations + more[..last]), more[last], id);
      }
    }
  }

  /** In every run, cancelling fails the download with this number in the list, unless it is
      over already, and no other one that is off the queue; a number out of range, none. */
  lemma CancellingFailsTheOne(cap: nat, operations: seq<Operation>, index: nat, x: DownloadId)
    requires cap >= 1
    ensures var m := After(cap, operations);
      var r := Step(m, AbortDownload(index));
      if index >= |m.downloads| then r == m
      else Taken(m, x) ==>
        x in r.states
        && r.states[x] == if x == m.downloads[index] && !Over(m.states[x]) then Failed else m.states[x]
  {
    hide After, Pump;
    var m := After(cap, operations);
    if index < |m.downloads| && Taken(m, x) {
      var id := m.downloads[index];
      assert id in m.states;
      var changed := m.(states := m.states[id := Failed]);
      assert QueuedIds(changed) == QueuedIds(m);
      PumpLeavesTaken(changed, x);
    }
  }

  // ----- The manager as it runs: callbacks re-enter the start loop -----

  ghost predicate Valid(m: Manager) {
    && Increasing(m.downloads)
    && (forall id | id in m.downloads :: id in m.states && id < m.nextId)
    && (forall i | 0 <= i < |m.queue| :: m.queue[i].download in m.states)
  }

  lemma {:induction false} PumpKeepsValid(m: Manager)
    requires Valid(m)
    ensures Valid(Pump(m))
    decreases |m.queue|
  {
    if m.queue != [] && Running(m) < m.cap {
      var p := Popped(m);
      assert forall i | 0 <= i < |p.queue| :: p.queue[i] == m.queue[i + 1];
      PumpKeepsValid(p);
    }
  }

  /** One turn whose start called back into the loop leaves nothing for the loop to do
      differently. */
  lemma NestedTurn(m: Manager)
    requires m.queue != [] && Running(m) < m.cap && m.queue[0].download in m.states
    requires m.queue[0].download in m.downloads
    ensures var q := m.queue[0];
      var after := StateChanged(m.(queue := m.queue[1..]), q.download, Outcome(q.connects));
      Pump(after) == Pump(m) && |after.queue| < |m.queue|
  {
    var q := m.queue[0];
    var rest := m.(queue := m.queue[1..]);
    if m.states[q.download] == Outcome(q.connects) {
      assert m.states[q.download := Outcome(q.connects)] == m.states;
      assert Popped(m) == rest;
    } else {
      assert Popped(m) == rest.(states := rest.states[q.download := Outcome(q.connects)]);
    }
  }

  ghost function RunningAmong(m: Manager, i: nat): set<DownloadId>
    requires i <= |m.downloads|
  {
    set id | id in m.downloads[..i] && id in m.states && Runs(m.states[id])
  }

  lemma CountsNext(m: Manager, i: nat)
    requires Valid(m) && i < |m.downloads|
    ensures |RunningAmong(m, i + 1)| == |RunningAmong(m, i)| + (if Runs(m.states[m.downloads[i]]) then 1 else 0)
  {
    var id := m.downloads[i];
    assert m.downloads[..i + 1] == m.downloads[..i] + [id];
    assert id !in m.downloads[..i];
    if Runs(m.states[id]) {
      assert RunningAmong(m, i + 1) == RunningAmong(m, i) + {id};
    } else {
      assert RunningAmong(m, i + 1) == RunningAmong(m, i);
    }
  }

  lemma UnfinishedNone(states: map<DownloadId, DownloadState>)
    ensures Unfinished(states, []) == []
  {
  }

  lemma UnfinishedNext(states: map<DownloadId, DownloadState>, ids: seq<DownloadId>, i: nat)
    requires i < |ids|
    ensures Unfinished(states, ids[i..]) ==
      (if IsUnfinished(states, ids[i]) then [ids[i]] else []) + Unfinished(states, ids[i + 1..])
  {
    assert ids[i..][0] == ids[i] && ids[i..][1..] == ids[i + 1..];
  }

  class DownloadManager {
    var downloads: seq<DownloadId>
    var states: map<DownloadId, DownloadState>
    var queuedStarts: seq<QueuedStart>
    var maxSimultaneousDownloads: nat
    var nextId: nat

    function State(): Manager
      reads this
    {
      Manager(downloads, states, queuedStarts, maxSimultaneousDownloads, nextId)
    }

    constructor ()
      ensures State() == Empty(3) && Valid(State())
    {
      downloads, states, queuedStarts, maxSimultaneousDownloads, nextId := [], map[], [], 3, 0;
    }

    method SetMaxSimultaneousDownloads(max: nat)
      modifies this
      ensures State() == Step(old(State()), SetCap(max))
    {
      maxSimultaneousDownloads := if max > 1 then max else 1;
    }

    method CountRunning() returns (count: nat)
      requires Valid(State())
      ensures count == Running(State())
    {
      count := 0;
      for i := 0 to |downloads|
        invariant count == |RunningAmong(State(), i)|
      {
        CountsNext(State(), i);
        if states[downloads[i]] != Idle && !Over(states[downloads[i]]) {
          count := count + 1;
        }
      }
      assert downloads[..|downloads|] == downloads;
      assert RunningAmong(State(), |downloads|) == RunningIds(State());
    }

    method FindIndexOf(id: DownloadId) returns (index: int)
      ensures -1 <= index < |downloads|
      ensures index >= 0 <==> id in downloads
      ensures index >= 0 ==> downloads[index] == id
    {
      for i := 0 to |downloads|
        invariant id !in downloads[..i]
      {
        if downloads[i] == id {
          return i;
        }
      }
      index := -1;
    }

    /** FileDownload::_SetState with the manager as listener. */
    method SetState(id: DownloadId, state: DownloadState)
      requires Valid(State()) && id in states
      modifies this
      ensures State() == StateChanged(old(State()), id, state) && Valid(State())
      decreases |queuedStarts|, 2
    {
      if states[id] == state {
        return;
      }
      states := states[id := state];
      DownloadStateChanged(id);
    }

    method DownloadStateChanged(id: DownloadId)
      requires Valid(State()) && id in states
      modifies this
      ensures State() == (if id in old(downloads) && Over(old(states[id])) then Pump(old(State())) else old(State()))
      ensures Valid(State())
      decreases |queuedStarts|, 1
    {
      var index := FindIndexOf(id);
      if index < 0 {
        return;
      }
      if Over(states[id]) {
        StartNextQueuedDownload();
      }
    }

    method StartNextQueuedDownload()
      requires Valid(State())
      modifies this
      ensures State() == Pump(old(State())) && Valid(State())
      decreases |queuedStarts|, 0
    {
      while queuedStarts != []
        invariant Valid(State())
        invariant Pump(State()) == Pump(old(State()))
        invariant |queuedStarts| <= old(|queuedStarts|)
        decreases |queuedStarts|
      {
        var running := CountRunning();
        if running >= maxSimultaneousDownloads {
          break;
        }
        ghost var before := State();
        var queued := queuedStarts[0];
        queuedStarts := queuedStarts[1..];
        assert forall i | 0 <= i < |queuedStarts| :: queuedStarts[i] == before.queue[i + 1];
        var index := FindIndexOf(queued.download);
        if index >= 0 {
          NestedTurn(before);
          SetState(queued.download, Outcome(queued.connects));
        }
      }
    }

    /** FileDownload::Abort */
    method AbortTransfer(id: DownloadId)
      requires Valid(State()) && id in states
      modifies this
      ensures State() == AbortOne(old(State()), id) && Valid(State())
    {
      if Over(states[id]) {
        return;
      }
      SetState(id, Failed);
    }

    method AbortAt(index: nat)
      requires Valid(State())
      modifies this
      ensures State() == Step(old(State()), AbortDownload(index)) && Valid(State())
    {
      if index >= |downloads| {
        return;
      }
      AbortTransfer(downloads[index]);
    }

    method AbortEverything()
      requires Valid(State())
      modifies this
      ensures State() == Step(old(State()), AbortAll) && Valid(State())
    {
      var i := 0;
      while i < |downloads|
        invariant Valid(State()) && downloads == old(downloads)
        invariant AbortFrom(State(), i) == AbortFrom(old(State()), 0)
        decreases |downloads| - i
      {
        AbortOneKeepsList(State(), downloads[i]);
        AbortTransfer(downloads[i]);
        i := i + 1;
      }
    }

    /** Walks the list backwards, removing as it goes. */
    method ClearFinishedDownloads()
      requires Valid(State())
      modifies this
      ensures State() == Step(old(State()), ClearFinished)
    {
      hide Pump, AbortFrom, Enqueued, StateChanged, Unfinished;
      ghost var before := downloads;
      ghost var kept: seq<DownloadId> := [];
      var i := |downloads|;
      UnfinishedNone(states);
      assert before[i..] == [] && before[..i] + kept == before;
      while i > 0
        invariant 0 <= i <= |before|
        invariant kept == Unfinished(states, before[i..])
        invariant downloads == before[..i] + kept
        invariant State() == old(State()).(downloads := downloads)
      {
        i := i - 1;
        UnfinishedNext(states, before, i);
        DropAt(before, i, kept);
        if Over(states[downloads[i]]) {
          downloads := downloads[..i] + downloads[i + 1..];
        } else {
          kept := [before[i]] + kept;
        }
      }
      assert before[0..] == before;
    }

    /** The sharers of a request that passed the checks each become one download. */
    method RequestDownloads(connects: seq<bool>)
      requires Valid(State())
      modifies this
      ensures State() == Step(old(State()), StartDownloads(connects)) && Valid(State())
    {
      for i := 0 to |connects|
        invariant Valid(State())
        invariant Enqueued(State(), connects[i..]) == Enqueued(old(State()), connects)
      {
        assert connects[i..][0] == connects[i] && connects[i..][1..] == connects[i + 1..];
        assert forall k | 0 <= k < |downloads| :: downloads[k] in downloads;
        downloads := downloads + [nextId];
        states := states[nextId := Idle];
        queuedStarts := queuedStarts + [QueuedStart(nextId, connects[i])];
        nextId := nextId + 1;
      }
      StartNextQueuedDownload();
    }
  }
}
