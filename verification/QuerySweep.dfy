// A client and a server joined by two FIFO channels: which nodes the client has been told
// about when the server's answer to its newest ping arrives. The server takes commands in
// order, keeps any number of subscriptions and answers pings in order; replies that have
// already left it are out of the reach of a jettison. A session publishes a file name
// under one of its two directories at a time.

module QuerySweep {

  import opened QueryProtocol

  /** The nodes the server holds (each with whether it lies under "fires") and the
      subscriptions it has for this client. */
  datatype Server = Server(held: map<FileKey, bool>, subscriptions: seq<Query>)

  /** History, for stating the properties: the matching nodes held when the newest
      subscription was taken up, the matching ones removed since, and what replies from
      earlier subscriptions had put in the view by then and is still not taken back. */
  datatype Sweep = Sweep(snapshot: set<FileKey>, removed: set<FileKey>, leftover: set<FileKey>)

  datatype System = System(client: Client, up: seq<Command>, down: seq<Reply>, server: Server, sweep: Sweep)

  datatype Action =
    | UserDoes(event: Event)                                  // anything but the arrival of a reply
    | ServerTakes(batches: seq<seq<FileKey>>, flown: nat)     // how a sweep is cut; how much has left already
    | NodeSet(key: FileKey, inFires: bool)
    | NodeRemoved(key: FileKey)
    | Deliver

  predicate Covers(glob: Glob, q: Query, key: FileKey, inFires: bool) {
    && glob(q.sessionPattern, key.sessionId) && glob(q.filePattern, key.fileName)
    && (inFires ==> !q.filesOnly)
  }

  function Matching(glob: Glob, q: Query, held: map<FileKey, bool>): set<FileKey> {
    set k | k in held && Covers(glob, q, k, held[k])
  }

  predicate AnyCovers(glob: Glob, subscriptions: seq<Query>, key: FileKey, inFires: bool) {
    exists i | 0 <= i < |subscriptions| :: Covers(glob, subscriptions[i], key, inFires)
  }

  function Union(batches: seq<seq<FileKey>>): set<FileKey> {
    if batches == [] then {} else Union(batches[..|batches| - 1]) + Elements(batches[|batches| - 1])
  }

  function Replies(batches: seq<seq<FileKey>>): seq<Reply> {
    if batches == [] then [] else Replies(batches[..|batches| - 1]) + [Items([], batches[|batches| - 1])]
  }

  /** Jettison: queued results are dropped, the pongs among them are not. */
  function PongsOnly(replies: seq<Reply>): seq<Reply> {
    if replies == [] then []
    else
      var last := |replies| - 1;
      PongsOnly(replies[..last]) + if replies[last].Pong? then [replies[last]] else []
  }

  /** What replies in flight will make of the view, while a query with these patterns is
      active. */
  function View(glob: Glob, sp: string, fp: string, shown: set<FileKey>, replies: seq<Reply>): set<FileKey> {
    if replies == [] then shown
    else ViewOne(glob, sp, fp, View(glob, sp, fp, shown, replies[..|replies| - 1]), replies[|replies| - 1])
  }

  function ViewOne(glob: Glob, sp: string, fp: string, shown: set<FileKey>, reply: Reply): set<FileKey> {
    match reply
    case Items(removed, added) => (shown - Elements(removed)) + Hits(glob, sp, fp, added)
    case Pong(_) => shown
  }

  function ViewOf(glob: Glob, y: System, replies: seq<Reply>): set<FileKey> {
    View(glob, y.client.sessionPattern, y.client.filePattern, y.client.shown, replies)
  }

  // ----- Steps -----

  function ClientDoes(glob: Glob, y: System, e: Event): System {
    var commands := match e
      case Started(sessionPattern, filePattern) => StartCommands(y.client, sessionPattern, filePattern)
      case Stopped => StopCommands(y.client)
      case _ => [];
    var moved := y.(client := Step(glob, y.client, e), up := y.up + commands);
    if moved.client.link.Connected? then moved
    else moved.(up := [], down := [], server := y.server.(subscriptions := []))
  }

  function TakeSubscribe(glob: Glob, y: System, q: Query, batches: seq<seq<FileKey>>): System
    requires y.up != []
  {
    if Union(batches) != Matching(glob, q, y.server.held) then y
    else
      y.(up := y.up[1..],
         down := y.down + Replies(batches),
         server := y.server.(subscriptions := y.server.subscriptions + [q]),
         sweep := Sweep(Union(batches), {}, ViewOf(glob, y, y.down)))
  }

  function ServerStep(glob: Glob, y: System, batches: seq<seq<FileKey>>, flown: nat): System
    requires y.up != []
  {
    match y.up[0]
    case Subscribe(q) => TakeSubscribe(glob, y, q, batches)
    case Unsubscribe => y.(up := y.up[1..], server := y.server.(subscriptions := []))
    case Jettison =>
      y.(up := y.up[1..],
         down := if flown <= |y.down| then y.down[..flown] + PongsOnly(y.down[flown..]) else y.down)
    case Ping(count) => y.(up := y.up[1..], down := y.down + [Pong(count)])
  }

  function Told(glob: Glob, y: System, key: FileKey, inFires: bool, reply: Reply): seq<Reply> {
    if AnyCovers(glob, y.server.subscriptions, key, inFires) then y.down + [reply] else y.down
  }

  function SystemStep(glob: Glob, y: System, a: Action): System {
    match a
    case UserDoes(e) => if e.Arrived? then y else ClientDoes(glob, y, e)
    case ServerTakes(batches, flown) => if y.up == [] then y else ServerStep(glob, y, batches, flown)
    case NodeSet(key, inFires) =>
      if key in y.server.held && y.server.held[key] != inFires then y
      else
        y.(server := y.server.(held := y.server.held[key := inFires]),
           down := Told(glob, y, key, inFires, Items([], [key])))
    case NodeRemoved(key) =>
      if key !in y.server.held then y
      else
        var inFires := y.server.held[key];
        var gone := if AnyCovers(glob, y.server.subscriptions, key, inFires) then {key} else {};
        y.(server := y.server.(held := y.server.held - {key}), down := Told(glob, y, key, inFires, Items([key], [])),
           sweep := y.sweep.(removed := y.sweep.removed + gone, leftover := y.sweep.leftover - gone))
    case Deliver =>
      if y.down == [] then y
      else y.(client := MessageReceived(glob, y.client, y.down[0]), down := y.down[1..])
  }

  // ----- Algebra of the channels -----

  lemma {:induction false} ViewAppend(glob: Glob, sp: string, fp: string, shown: set<FileKey>, a: seq<Reply>,
                                      b: seq<Reply>)
    ensures View(glob, sp, fp, shown, a + b) == View(glob, sp, fp, View(glob, sp, fp, shown, a), b)
  {
    if b == [] {
      assert a + b == a;
    } else {
      var last := |b| - 1;
      assert (a + b)[..|a + b| - 1] == a + b[..last];
      ViewAppend(glob, sp, fp, shown, a, b[..last]);
    }
  }

  lemma ViewSnoc(glob: Glob, sp: string, fp: string, shown: set<FileKey>, a: seq<Reply>, m: Reply)
    ensures View(glob, sp, fp, shown, a + [m]) == ViewOne(glob, sp, fp, View(glob, sp, fp, shown, a), m)
  {
    assert (a + [m])[..|a|] == a;
  }

  lemma ViewHead(glob: Glob, sp: string, fp: string, shown: set<FileKey>, replies: seq<Reply>)
    requires replies != []
    ensures View(glob, sp, fp, shown, replies)
         == View(glob, sp, fp, ViewOne(glob, sp, fp, shown, replies[0]), replies[1..])
  {
    assert replies == [] + [replies[0]] + replies[1..];
    ViewAppend(glob, sp, fp, shown, [replies[0]], replies[1..]);
    ViewSnoc(glob, sp, fp, shown, [], replies[0]);
    assert [] + [replies[0]] == [replies[0]];
  }

  lemma {:induction false} SweepView(glob: Glob, sp: string, fp: string, shown: set<FileKey>,
                                     batches: seq<seq<FileKey>>)
    requires forall k | k in Union(batches) :: Accepts(glob, sp, fp, k)
    ensures View(glob, sp, fp, shown, Replies(batches)) == shown + Union(batches)
    ensures forall m | m in Replies(batches) :: m.Items?
  {
    if batches != [] {
      var last := |batches| - 1;
      SweepView(glob, sp, fp, shown, batches[..last]);
      ViewSnoc(glob, sp, fp, shown, Replies(batches[..last]), Items([], batches[last]));
      assert Hits(glob, sp, fp, batches[last]) == Elements(batches[last]);
    }
  }

  lemma {:induction false} PongsOnlyKeeps(replies: seq<Reply>)
    ensures forall m :: m in PongsOnly(replies) <==> m in replies && m.Pong?
  {
    if replies != [] {
      var last := |replies| - 1;
      PongsOnlyKeeps(replies[..last]);
      assert replies == replies[..last] + [replies[last]];
    }
  }

  /** The subscriptions the server will have when it has taken every command under way. */
  function Final(subscriptions: seq<Query>, up: seq<Command>): seq<Query> {
    if up == [] then subscriptions else FinalOne(Final(subscriptions, up[..|up| - 1]), up[|up| - 1])
  }

  function FinalOne(subscriptions: seq<Query>, c: Command): seq<Query> {
    match c
    case Subscribe(q) => subscriptions + [q]
    case Unsubscribe => []
    case Jettison => subscriptions
    case Ping(_) => subscriptions
  }

  lemma {:induction false} FinalAppend(subscriptions: seq<Query>, a: seq<Command>, b: seq<Command>)
    ensures Final(subscriptions, a + b) == Final(Final(subscriptions, a), b)
  {
    if b == [] {
      assert a + b == a;
    } else {
      var last := |b| - 1;
      assert (a + b)[..|a + b| - 1] == a + b[..last];
      FinalAppend(subscriptions, a, b[..last]);
    }
  }

  lemma FinalHead(subscriptions: seq<Query>, up: seq<Command>)
    requires up != []
    ensures Final(subscriptions, up) == Final(FinalOne(subscriptions, up[0]), up[1..])
  {
    assert up == [up[0]] + up[1..];
    FinalAppend(subscriptions, [up[0]], up[1..]);
    assert [up[0]][..0] == [];
  }

  // ----- The invariant -----

  ghost predicate CountsBelow(y: System) {
    && (forall c: Command | c in y.up && c.Ping? :: c.count < y.client.pingCount)
    && (forall m: Reply | m in y.down && m.Pong? :: m.count < y.client.pingCount)
  }

  function Newest(y: System): int { y.client.pingCount - 1 }

  /** The subscription and its ping are still on their way to the server. */
  ghost predicate StillAsked(y: System, q: Query) {
    && y.client.sweeping && Newest(y) >= 0
    && |y.up| >= 2 && y.up[|y.up| - 2] == Subscribe(q) && y.up[|y.up| - 1] == Ping(Newest(y))
    && (forall i | 0 <= i < |y.up| - 2 :: y.up[i] != Ping(Newest(y)))
    && Pong(Newest(y)) !in y.down
  }

  /** The server has taken the subscription up: what is shown and in flight comes to the
      matching nodes and the leftovers, and what precedes the newest pong in flight covers
      the snapshot. */
  ghost predicate TakenUp(glob: Glob, y: System, q: Query) {
    && y.server.subscriptions == [q]
    && (y.up == [] || (y.client.sweeping && Newest(y) >= 0 && y.up == [Ping(Newest(y))] && Pong(Newest(y)) !in y.down))
    && ViewOf(glob, y, y.down) == Matching(glob, q, y.server.held) + y.sweep.leftover
    && y.sweep.snapshot - y.sweep.removed <= Matching(glob, q, y.server.held)
    && (forall i | 0 <= i < |y.down| && y.down[i] == Pong(Newest(y)) ::
          y.sweep.snapshot - y.sweep.removed <= ViewOf(glob, y, y.down[..i]))
  }

  ghost predicate InProgress(glob: Glob, y: System, q: Query) {
    && Final(y.server.subscriptions, y.up) == [q]
    && q.sessionPattern == y.client.sessionPattern && q.filePattern == y.client.filePattern
    && (StillAsked(y, q) || TakenUp(glob, y, q))
  }

  ghost predicate Inv(glob: Glob, y: System) {
    && Unmixed(glob, y.client) && CountsBelow(y)
    && (!y.client.link.Connected? ==> y.up == [] && y.down == [] && y.server.subscriptions == [])
    && (y.client.link.Connected? && !y.client.queryActive ==> Final(y.server.subscriptions, y.up) == [])
    && (y.client.link.Connected? && y.client.queryActive ==> exists q :: InProgress(glob, y, q))
  }

  // ----- The user's side -----

  lemma StartKeepsInv(glob: Glob, y: System, sessionPattern: string, filePattern: string)
    requires Inv(glob, y)
    ensures Inv(glob, ClientDoes(glob, y, Started(sessionPattern, filePattern)))
  {
    var e := Started(sessionPattern, filePattern);
    var r := ClientDoes(glob, y, e);
    if y.client.link.Connected? {
      var q := AskedQuery(y.client, sessionPattern, filePattern);
      var stop := StopCommands(y.client);
      StopFinal(glob, y);
      var asking := [Subscribe(q), Ping(y.client.pingCount)];
      assert r.up == (y.up + stop) + asking;
      FinalAppend(y.server.subscriptions, y.up + stop, asking);
      AskingFinal(q, y.client.pingCount);
      hide Final, Unmixed;
      AskingIsFresh(y, r, stop, q);
      assert InProgress(glob, r, q);
    }
  }

  lemma AskingIsFresh(y: System, r: System, stop: seq<Command>, q: Query)
    requires CountsBelow(y) && (forall c | c in stop :: !c.Ping?) && r.down == y.down
    requires r.client.sweeping && r.client.pingCount == y.client.pingCount + 1
    requires r.up == (y.up + stop) + [Subscribe(q), Ping(y.client.pingCount)]
    ensures StillAsked(r, q) && CountsBelow(r)
  {
    var before := y.up + stop;
    forall c: Command | c in r.up && c.Ping? ensures c.count < r.client.pingCount {
      assert c in before || c == Ping(y.client.pingCount);
    }
    forall i | 0 <= i < |r.up| - 2 ensures r.up[i] != Ping(y.client.pingCount) {
      assert r.up[i] == before[i] && (before[i] in y.up || before[i] in stop);
    }
  }

  lemma AskingFinal(q: Query, count: nat)
    ensures Final([], [Subscribe(q), Ping(count)]) == [q]
  {
    var up := [Subscribe(q), Ping(count)];
    assert up[..1] == [Subscribe(q)] && up[..1][..0] == [];
    assert Final([], [Subscribe(q)]) == [] + [q];
  }

  lemma StopFinal(glob: Glob, y: System)
    requires Inv(glob, y) && y.client.link.Connected?
    ensures Final(y.server.subscriptions, y.up + StopCommands(y.client)) == []
  {
    FinalAppend(y.server.subscriptions, y.up, StopCommands(y.client));
    var stop := StopCommands(y.client);
    if y.client.queryActive {
      var before := Final(y.server.subscriptions, y.up);
      assert stop[..1] == [Unsubscribe];
      assert Final(before, [Unsubscribe]) == [];
    }
  }

  lemma FirewallKeepsProgress(glob: Glob, y: System, r: System, q: Query)
    requires InProgress(glob, y, q) && r == y.(client := y.client.(firewalled := r.client.firewalled))
    ensures InProgress(glob, r, q)
  {
    hide View, Final, Matching;
  }

  lemma UserKeepsInv(glob: Glob, y: System, e: Event)
    requires Inv(glob, y) && !e.Arrived?
    ensures Inv(glob, ClientDoes(glob, y, e))
  {
    hide Final, InProgress, ViewOf;
    match e
    case Started(sessionPattern, filePattern) => StartKeepsInv(glob, y, sessionPattern, filePattern);
    case Stopped =>
      if y.client.link.Connected? {
        StopFinal(glob, y);
      }
    case FirewallSet(_) =>
      var r := ClientDoes(glob, y, e);
      if y.client.link.Connected? {
        assert r.up == y.up + [] == y.up;
        if y.client.queryActive {
          var q :| InProgress(glob, y, q);
          FirewallKeepsProgress(glob, y, r, q);
        }
      }
    case LinkUp =>
      assert y.up + [] == y.up;
      NothingUnderWay();
    case _ =>
  }

  lemma NothingUnderWay()
    ensures Final([], []) == []
  {
  }

  // ----- The server's side -----

  /** While the newest subscription waits in the channel, nothing the server does about
      earlier commands matters to it. */
  lemma TakeKeepsAsking(glob: Glob, y: System, q: Query, batches: seq<seq<FileKey>>, flown: nat)
    requires StillAsked(y, q) && |y.up| > 2 && CountsBelow(y)
    ensures var r := ServerStep(glob, y, batches, flown);
      StillAsked(r, q) && CountsBelow(r)
  {
    var r := ServerStep(glob, y, batches, flown);
    assert y.up[0] != Ping(Newest(y));
    DownAfterTake(glob, y, batches, flown);
    assert r.up == y.up || forall i | 0 <= i < |r.up| :: r.up[i] == y.up[i + 1];
  }

  /** The replies under way after the server has taken a command are old ones, sweep
      results, and the answer to a ping. */
  lemma DownAfterTake(glob: Glob, y: System, batches: seq<seq<FileKey>>, flown: nat)
    requires y.up != []
    ensures forall m: Reply | m in ServerStep(glob, y, batches, flown).down && m.Pong? ::
      m in y.down || (y.up[0].Ping? && m == Pong(y.up[0].count))
  {
    match y.up[0]
    case Jettison =>
      if flown <= |y.down| {
        PongsOnlyKeeps(y.down[flown..]);
        assert forall m | m in y.down[flown..] :: m in y.down;
        assert forall m | m in y.down[..flown] :: m in y.down;
      }
    case Subscribe(_) => RepliesAreItems(batches);
    case _ =>
  }

  lemma {:induction false} RepliesAreItems(batches: seq<seq<FileKey>>)
    ensures forall m | m in Replies(batches) :: m.Items?
  {
    if batches != [] {
      RepliesAreItems(batches[..|batches| - 1]);
    }
  }

  lemma SubscriptionIsTakenUp(glob: Glob, y: System, q: Query, batches: seq<seq<FileKey>>)
    requires StillAsked(y, q) && |y.up| == 2 && y.server.subscriptions == []
    requires q.sessionPattern == y.client.sessionPattern && q.filePattern == y.client.filePattern
    requires Union(batches) == Matching(glob, q, y.server.held)
    ensures TakenUp(glob, TakeSubscribe(glob, y, q, batches), q)
  {
    hide View, Replies, Unmixed;
    var r := TakeSubscribe(glob, y, q, batches);
    var sp, fp := y.client.sessionPattern, y.client.filePattern;
    assert r.up == [Ping(Newest(y))];
    ViewAppend(glob, sp, fp, y.client.shown, y.down, Replies(batches));
    SweepView(glob, sp, fp, ViewOf(glob, y, y.down), batches);
    RepliesAreItems(batches);
    assert Pong(Newest(y)) !in r.down;
  }

  lemma PingIsAnswered(glob: Glob, y: System, q: Query)
    requires TakenUp(glob, y, q) && y.up != []
    ensures TakenUp(glob, y.(up := y.up[1..], down := y.down + [Pong(Newest(y))]), q)
  {
    var r := y.(up := y.up[1..], down := y.down + [Pong(Newest(y))]);
    ViewSnoc(glob, y.client.sessionPattern, y.client.filePattern, y.client.shown, y.down, Pong(Newest(y)));
    forall i | 0 <= i < |r.down| && r.down[i] == Pong(Newest(y))
      ensures y.sweep.snapshot - y.sweep.removed <= ViewOf(glob, r, r.down[..i])
    {
      assert forall j | 0 <= j < |y.down| :: y.down[j] in y.down;
      assert r.down[..i] == y.down;
    }
  }

  lemma ServerKeepsInv(glob: Glob, y: System, batches: seq<seq<FileKey>>, flown: nat)
    requires Inv(glob, y) && y.up != []
    ensures Inv(glob, ServerStep(glob, y, batches, flown))
  {
    var r := ServerStep(glob, y, batches, flown);
    DownAfterTake(glob, y, batches, flown);
    FinalHead(y.server.subscriptions, y.up);
    if y.client.queryActive {
      var q :| InProgress(glob, y, q);
      ProgressUnderTake(glob, y, q, batches, flown);
    }
  }

  lemma ProgressUnderTake(glob: Glob, y: System, q: Query, batches: seq<seq<FileKey>>, flown: nat)
    requires InProgress(glob, y, q) && CountsBelow(y) && y.up != []
    ensures InProgress(glob, ServerStep(glob, y, batches, flown), q)
  {
    FinalHead(y.server.subscriptions, y.up);
    if TakenUp(glob, y, q) {
      PingIsAnswered(glob, y, q);
    } else if |y.up| > 2 {
      TakeKeepsAsking(glob, y, q, batches, flown);
    } else {
      assert y.up[1..] == [Ping(Newest(y))];
      assert Final(y.server.subscriptions + [q], [Ping(Newest(y))]) == y.server.subscriptions + [q];
      if Union(batches) == Matching(glob, q, y.server.held) {
        SubscriptionIsTakenUp(glob, y, q, batches);
      }
    }
  }

  // ----- The server's nodes, and delivery -----

  lemma ToldAppends(glob: Glob, y: System, q: Query, key: FileKey, inFires: bool, reply: Reply)
    requires y.server.subscriptions == [q]
    ensures AnyCovers(glob, y.server.subscriptions, key, inFires) <==> Covers(glob, q, key, inFires)
    ensures Told(glob, y, key, inFires, reply) == if Covers(glob, q, key, inFires) then y.down + [reply] else y.down
  {
    var subscriptions := y.server.subscriptions;
    assert AnyCovers(glob, subscriptions, key, inFires) <==> Covers(glob, subscriptions[0], key, inFires);
  }

  lemma ChangeIsSeen(glob: Glob, y: System, r: System, q: Query, reply: Reply)
    requires TakenUp(glob, y, q) && reply.Items?
    requires r == y.(server := r.server, down := y.down + [reply], sweep := r.sweep) && r.server.subscriptions == [q]
    requires ViewOne(glob, y.client.sessionPattern, y.client.filePattern,
                     Matching(glob, q, y.server.held) + y.sweep.leftover, reply)
          == Matching(glob, q, r.server.held) + r.sweep.leftover
    requires r.sweep.snapshot == y.sweep.snapshot && y.sweep.removed <= r.sweep.removed
    requires r.sweep.snapshot - r.sweep.removed <= Matching(glob, q, r.server.held)
    ensures TakenUp(glob, r, q)
  {
    ViewSnoc(glob, y.client.sessionPattern, y.client.filePattern, y.client.shown, y.down, reply);
    forall i | 0 <= i < |r.down| && r.down[i] == Pong(Newest(r))
      ensures r.sweep.snapshot - r.sweep.removed <= ViewOf(glob, r, r.down[..i])
    {
      assert i < |y.down| && r.down[i] == y.down[i] && r.down[..i] == y.down[..i];
    }
    assert Pong(Newest(y)) !in y.down ==> Pong(Newest(y)) !in r.down;
  }

  lemma NodeSetIsSeen(glob: Glob, y: System, q: Query, key: FileKey, inFires: bool)
    requires TakenUp(glob, y, q)
    requires q.sessionPattern == y.client.sessionPattern && q.filePattern == y.client.filePattern
    ensures TakenUp(glob, SystemStep(glob, y, NodeSet(key, inFires)), q)
  {
    var r := SystemStep(glob, y, NodeSet(key, inFires));
    if r != y {
      ToldAppends(glob, y, q, key, inFires, Items([], [key]));
      if Covers(glob, q, key, inFires) {
        assert Matching(glob, q, r.server.held) == Matching(glob, q, y.server.held) + {key};
        assert Hits(glob, q.sessionPattern, q.filePattern, [key]) == {key};
        ChangeIsSeen(glob, y, r, q, Items([], [key]));
      } else {
        assert Matching(glob, q, r.server.held) == Matching(glob, q, y.server.held);
      }
    }
  }

  lemma NodeRemovedIsSeen(glob: Glob, y: System, q: Query, key: FileKey)
    requires TakenUp(glob, y, q)
    requires q.sessionPattern == y.client.sessionPattern && q.filePattern == y.client.filePattern
    ensures TakenUp(glob, SystemStep(glob, y, NodeRemoved(key)), q)
  {
    var r := SystemStep(glob, y, NodeRemoved(key));
    if key in y.server.held {
      var inFires := y.server.held[key];
      ToldAppends(glob, y, q, key, inFires, Items([key], []));
      if Covers(glob, q, key, inFires) {
        assert Matching(glob, q, r.server.held) == Matching(glob, q, y.server.held) - {key};
        assert Elements([key]) == {key} && Hits(glob, q.sessionPattern, q.filePattern, []) == {};
        ChangeIsSeen(glob, y, r, q, Items([key], []));
      } else {
        assert Matching(glob, q, r.server.held) == Matching(glob, q, y.server.held);
      }
    }
  }

  /** A delivered reply changes the view exactly as foretold. */
  lemma DeliveryShows(glob: Glob, y: System)
    requires y.client.queryActive && y.down != []
    ensures var r := SystemStep(glob, y, Deliver);
      && r.client.shown == ViewOne(glob, y.client.sessionPattern, y.client.filePattern, y.client.shown, y.down[0])
      && ViewOf(glob, r, r.down) == ViewOf(glob, y, y.down)
      && forall i | 0 < i <= |y.down| :: ViewOf(glob, r, r.down[..i - 1]) == ViewOf(glob, y, y.down[..i])
  {
    var r := SystemStep(glob, y, Deliver);
    ViewHead(glob, y.client.sessionPattern, y.client.filePattern, y.client.shown, y.down);
    forall i | 0 < i <= |y.down| ensures ViewOf(glob, r, r.down[..i - 1]) == ViewOf(glob, y, y.down[..i]) {
      ViewHead(glob, y.client.sessionPattern, y.client.filePattern, y.client.shown, y.down[..i]);
      assert y.down[..i][1..] == r.down[..i - 1];
    }
  }

  lemma DeliverKeepsProgress(glob: Glob, y: System, q: Query)
    requires InProgress(glob, y, q) && y.client.queryActive && y.down != [] && CountsBelow(y)
    ensures InProgress(glob, SystemStep(glob, y, Deliver), q)
  {
    var r := SystemStep(glob, y, Deliver);
    var m := y.down[0];
    assert forall x | x in r.down :: x in y.down;
    if StillAsked(y, q) {
      assert m in y.down && m != Pong(Newest(y));
      assert StillAsked(r, q);
    } else {
      hide ViewOf, Matching, Final, HandleItems;
      DeliveryShows(glob, y);
      forall i | 0 <= i < |r.down| && r.down[i] == Pong(Newest(r))
        ensures r.sweep.snapshot - r.sweep.removed <= ViewOf(glob, r, r.down[..i])
      {
        assert y.down[i + 1] == Pong(Newest(y));
      }
      assert y.up != [] ==> m in y.down && m != Pong(Newest(y));
    }
  }

  // ----- Every run -----

  lemma NodesKeepInv(glob: Glob, y: System, a: Action)
    requires Inv(glob, y) && (a.NodeSet? || a.NodeRemoved?)
    ensures Inv(glob, SystemStep(glob, y, a))
  {
    var r := SystemStep(glob, y, a);
    assert !y.client.link.Connected? ==> r.down == y.down;
    if y.client.link.Connected? && y.client.queryActive {
      var q :| InProgress(glob, y, q);
      if StillAsked(y, q) {
      } else if a.NodeSet? {
        NodeSetIsSeen(glob, y, q, a.key, a.inFires);
      } else {
        NodeRemovedIsSeen(glob, y, q, a.key);
      }
      assert InProgress(glob, r, q);
    }
  }

  lemma DeliverKeepsInv(glob: Glob, y: System)
    requires Inv(glob, y)
    ensures Inv(glob, SystemStep(glob, y, Deliver))
  {
    if y.down != [] {
      var r := SystemStep(glob, y, Deliver);
      assert forall x | x in r.down :: x in y.down;
      if y.client.queryActive {
        var q :| InProgress(glob, y, q);
        DeliverKeepsProgress(glob, y, q);
      }
    }
  }

  lemma StepKeepsInv(glob: Glob, y: System, a: Action)
    requires Inv(glob, y)
    ensures Inv(glob, SystemStep(glob, y, a))
  {
    match a
    case UserDoes(e) =>
      if !e.Arrived? {
        UserKeepsInv(glob, y, e);
      }
    case ServerTakes(batches, flown) =>
      if y.up != [] {
        ServerKeepsInv(glob, y, batches, flown);
      }
    case NodeSet(_, _) => NodesKeepInv(glob, y, a);
    case NodeRemoved(_) => NodesKeepInv(glob, y, a);
    case Deliver => DeliverKeepsInv(glob, y);
  }

  const AT_REST: System := System(NEW_CLIENT, [], [], Server(map[], []), Sweep({}, {}, {}))

  function RunFrom(glob: Glob, y: System, actions: seq<Action>): System {
    if actions == [] then y
    else
      var last := |actions| - 1;
      SystemStep(glob, RunFrom(glob, y, actions[..last]), actions[last])
  }

  lemma {:induction false} RunKeepsInv(glob: Glob, y: System, actions: seq<Action>)
    requires Inv(glob, y)
    ensures Inv(glob, RunFrom(glob, y, actions))
  {
    if actions != [] {
      var last := |actions| - 1;
      RunKeepsInv(glob, y, actions[..last]);
      StepKeepsInv(glob, RunFrom(glob, y, actions[..last]), actions[last]);
    }
  }

  function After(glob: Glob, actions: seq<Action>): System { RunFrom(glob, AT_REST, actions) }

  /** The sweep. In every run, the pong about to be delivered reports the sweep finished
      exactly if it answers the newest ping. If the query is still active then, the server
      has taken up this query's subscription and nothing since, and every matching node it
      held at that moment and has not removed since is in the view. */
  lemma PongEndsSweep(glob: Glob, actions: seq<Action>)
    ensures var y := After(glob, actions);
      var r := SystemStep(glob, y, Deliver);
      y.down != [] && y.down[0].Pong? ==>
        && (y.down[0].count >= y.client.pingCount - 1 <==> y.down[0].count == Newest(y))
        && (y.client.queryActive && y.down[0].count == Newest(y) ==>
              && y.up == [] && !r.client.sweeping
              && |y.server.subscriptions| == 1
              && y.server.subscriptions[0].sessionPattern == y.client.sessionPattern
              && y.server.subscriptions[0].filePattern == y.client.filePattern
              && y.sweep.snapshot - y.sweep.removed <= r.client.shown)
  {
    RunKeepsInv(glob, AT_REST, actions);
    var y := After(glob, actions);
    assert y.down != [] ==> y.down[0] in y.down;
    if y.down != [] && y.down[0].Pong? && y.client.queryActive && y.down[0].count == Newest(y) {
      var q :| InProgress(glob, y, q);
      assert y.down[0] == Pong(Newest(y));
      assert !StillAsked(y, q);
      assert y.down[..0] == [];
    }
  }

  /** The jettison of a stopped query never reaches the next query's results: while the
      server has an unsubscription or a jettison to take and a query is active, that
      query's own subscription is still behind it in the channel. */
  lemma JettisonSparesNewQuery(glob: Glob, actions: seq<Action>, i: nat)
    ensures var y := After(glob, actions);
      y.client.queryActive && i < |y.up| && (y.up[i].Jettison? || y.up[i].Unsubscribe?) ==>
        && i < |y.up| - 2
        && y.up[|y.up| - 2].Subscribe?
        && y.up[|y.up| - 2].query.sessionPattern == y.client.sessionPattern
        && y.up[|y.up| - 2].query.filePattern == y.client.filePattern
        && y.client.pingCount >= 1 && y.up[|y.up| - 1] == Ping(y.client.pingCount - 1)
  {
    hide Unmixed, ViewOf, Matching, Final, RunFrom;
    RunKeepsInv(glob, AT_REST, actions);
    var y := After(glob, actions);
    if y.client.queryActive && i < |y.up| && (y.up[i].Jettison? || y.up[i].Unsubscribe?) {
      var q :| InProgress(glob, y, q);
      assert StillAsked(y, q);
    }
  }

  /** The live view. Once nothing is under way in either channel, the view is the matching
      nodes the server holds now, plus what replies from earlier subscriptions had left
      behind; so it is exact if and only if those still match nodes that are held. */
  lemma ViewIsLive(glob: Glob, actions: seq<Action>)
    ensures var y := After(glob, actions);
      y.client.link.Connected? && y.client.queryActive && y.up == [] && y.down == [] ==>
        && |y.server.subscriptions| == 1
        && var live := Matching(glob, y.server.subscriptions[0], y.server.held);
        && y.client.shown == live + y.sweep.leftover
        && (y.client.shown == live <==> y.sweep.leftover <= live)
  {
    RunKeepsInv(glob, AT_REST, actions);
    var y := After(glob, actions);
    if y.client.link.Connected? && y.client.queryActive && y.up == [] && y.down == [] {
      var q :| InProgress(glob, y, q);
      assert !StillAsked(y, q);
    }
  }

  // ----- Starting from quiet -----

  ghost predicate Untainted(glob: Glob, y: System, q: Query) {
    && y.client.queryActive && y.client.link.Connected?
    && InProgress(glob, y, q)
    && (if StillAsked(y, q)
        then && y.up == [Subscribe(q), Ping(Newest(y))] && y.down == []
             && y.client.shown == {} && y.server.subscriptions == []
        else y.sweep.leftover <= Matching(glob, q, y.server.held))
  }

  /** A leftover that matches a held node is taken back together with the node. */
  lemma LeftoverStaysHeld(glob: Glob, y: System, q: Query, a: Action)
    requires y.server.subscriptions == [q] && (a.NodeSet? || a.NodeRemoved?)
    requires y.sweep.leftover <= Matching(glob, q, y.server.held)
    ensures var r := SystemStep(glob, y, a);
      r.sweep.leftover <= Matching(glob, q, r.server.held)
  {
    if a.NodeRemoved? && a.key in y.server.held {
      ToldAppends(glob, y, q, a.key, y.server.held[a.key], Items([a.key], []));
    }
  }

  lemma NodesStayUntainted(glob: Glob, y: System, q: Query, a: Action)
    requires Untainted(glob, y, q) && (a.NodeSet? || a.NodeRemoved?)
    ensures Untainted(glob, SystemStep(glob, y, a), q)
  {
    hide Matching, ViewOf, Final;
    if StillAsked(y, q) {
    } else {
      LeftoverStaysHeld(glob, y, q, a);
      if a.NodeSet? {
        NodeSetIsSeen(glob, y, q, a.key, a.inFires);
      } else {
        NodeRemovedIsSeen(glob, y, q, a.key);
      }
    }
  }

  lemma StepStaysUntainted(glob: Glob, y: System, q: Query, a: Action)
    requires Inv(glob, y) && Untainted(glob, y, q) && !a.UserDoes?
    ensures Untainted(glob, SystemStep(glob, y, a), q)
  {
    match a
    case ServerTakes(batches, flown) =>
      if y.up != [] {
        ProgressUnderTake(glob, y, q, batches, flown);
      }
    case NodeSet(_, _) => NodesStayUntainted(glob, y, q, a);
    case NodeRemoved(_) => NodesStayUntainted(glob, y, q, a);
    case Deliver =>
      if y.down != [] {
        DeliverKeepsProgress(glob, y, q);
      }
  }

  /** A query started while no query was active and nothing was under way has an exact
      view whenever the channels are empty again, whatever happens on the server. */
  lemma QuietStartIsExact(glob: Glob, before: seq<Action>, sessionPattern: string, filePattern: string,
                          after: seq<Action>)
    ensures var y := After(glob, before);
      var r := RunFrom(glob, SystemStep(glob, y, UserDoes(Started(sessionPattern, filePattern))), after);
      && y.client.link.Connected? && !y.client.queryActive && y.up == [] && y.down == []
      && (forall a | a in after :: !a.UserDoes?)
      && r.up == [] && r.down == [] ==>
        forall k :: k in r.client.shown <==>
          && k in r.server.held
          && glob(if sessionPattern == "" then "*" else sessionPattern, k.sessionId)
          && glob(if filePattern == "" then "*" else filePattern, k.fileName)
          && (r.server.held[k] ==> !y.client.firewalled)
  {
    RunKeepsInv(glob, AT_REST, before);
    var y := After(glob, before);
    if y.client.link.Connected? && !y.client.queryActive && y.up == [] && y.down == []
       && (forall a | a in after :: !a.UserDoes?) {
      var e := Started(sessionPattern, filePattern);
      var q := AskedQuery(y.client, sessionPattern, filePattern);
      hide Inv, Untainted, RunFrom, After, ClientDoes, Matching;
      UserKeepsInv(glob, y, e);
      QuietStartIsUntainted(glob, y, sessionPattern, filePattern);
      RunStaysUntainted(glob, SystemStep(glob, y, UserDoes(e)), q, after);
      var r := RunFrom(glob, SystemStep(glob, y, UserDoes(e)), after);
      if r.up == [] && r.down == [] {
        UntaintedIsExact(glob, r, q);
        MatchingIsWhatWasTyped(glob, y.client, sessionPattern, filePattern, r.server.held);
      }
    }
  }

  lemma MatchingIsWhatWasTyped(glob: Glob, c: Client, sessionPattern: string, filePattern: string,
                               held: map<FileKey, bool>)
    ensures forall k :: k in Matching(glob, AskedQuery(c, sessionPattern, filePattern), held) <==>
      && k in held
      && glob(if sessionPattern == "" then "*" else sessionPattern, k.sessionId)
      && glob(if filePattern == "" then "*" else filePattern, k.fileName)
      && (held[k] ==> !c.firewalled)
  {
  }

  lemma QuietStartIsUntainted(glob: Glob, y: System, sessionPattern: string, filePattern: string)
    requires Inv(glob, y) && y.client.link.Connected? && !y.client.queryActive && y.up == [] && y.down == []
    ensures Untainted(glob, SystemStep(glob, y, UserDoes(Started(sessionPattern, filePattern))),
                      AskedQuery(y.client, sessionPattern, filePattern))
  {
    var q := AskedQuery(y.client, sessionPattern, filePattern);
    var z := SystemStep(glob, y, UserDoes(Started(sessionPattern, filePattern)));
    UserKeepsInv(glob, y, Started(sessionPattern, filePattern));
    assert z.up == [] + [] + [Subscribe(q), Ping(Newest(z))];
    AskingFinal(q, y.client.pingCount);
  }

  lemma UntaintedIsExact(glob: Glob, y: System, q: Query)
    requires Untainted(glob, y, q) && y.up == [] && y.down == []
    ensures y.client.shown == Matching(glob, q, y.server.held)
  {
  }

  lemma {:induction false} RunStaysUntainted(glob: Glob, y: System, q: Query, actions: seq<Action>)
    requires Inv(glob, y) && Untainted(glob, y, q) && forall a | a in actions :: !a.UserDoes?
    ensures Untainted(glob, RunFrom(glob, y, actions), q)
  {
    if actions != [] {
      var last := |actions| - 1;
      RunStaysUntainted(glob, y, q, actions[..last]);
      RunKeepsInv(glob, y, actions[..last]);
      StepStaysUntainted(glob, RunFrom(glob, y, actions[..last]), q, actions[last]);
    }
  }

  // ----- Which replaced queries have an exact view -----

  /** Until the user acts again, the view is exact whenever nothing is under way. */
  ghost predicate StaysExact(glob: Glob, y: System, q: Query) {
    forall after: seq<Action> | (forall a | a in after :: !a.UserDoes?) ::
      var r := RunFrom(glob, y, after);
      r.up == [] && r.down == [] ==> r.client.shown == Matching(glob, q, r.server.held)
  }

  /** The moment the server takes up the newest subscription decides, however the query
      was started and whatever it replaced: the view is exact at every quiet moment from
      then on if and only if, with the replies in flight at that moment delivered, it would
      show only matching nodes the server holds. */
  lemma StaleRepliesDecide(glob: Glob, before: seq<Action>, batches: seq<seq<FileKey>>, flown: nat)
    ensures var y := After(glob, before);
      y.client.queryActive && |y.up| == 2 && y.up[0].Subscribe? ==>
        var q := y.up[0].query;
        Union(batches) == Matching(glob, q, y.server.held) ==>
          (StaysExact(glob, SystemStep(glob, y, ServerTakes(batches, flown)), q)
           <==> ViewOf(glob, y, y.down) <= Matching(glob, q, y.server.held))
  {
    RunKeepsInv(glob, AT_REST, before);
    var y := After(glob, before);
    if y.client.queryActive && |y.up| == 2 && y.up[0].Subscribe? {
      var q := y.up[0].query;
      if Union(batches) == Matching(glob, q, y.server.held) {
        hide Inv, After, RunFrom, Matching, ViewOf;
        var z := SystemStep(glob, y, ServerTakes(batches, flown));
        NewestIsTakenUp(glob, y, q, batches, flown);
        if z.sweep.leftover <= Matching(glob, q, z.server.held) {
          UntaintedStaysExact(glob, z, q);
        } else {
          LeftoverStays(glob, z, q);
        }
      }
    }
  }

  /** The query has been taken up by the server, and the link is up. */
  ghost predicate Answering(glob: Glob, y: System, q: Query) {
    y.client.queryActive && y.client.link.Connected? && InProgress(glob, y, q) && TakenUp(glob, y, q)
  }

  lemma NewestIsTakenUp(glob: Glob, y: System, q: Query, batches: seq<seq<FileKey>>, flown: nat)
    requires Inv(glob, y) && y.client.queryActive && |y.up| == 2 && y.up[0] == Subscribe(q)
    requires Union(batches) == Matching(glob, q, y.server.held)
    ensures var z := SystemStep(glob, y, ServerTakes(batches, flown));
      && Inv(glob, z) && Answering(glob, z, q)
      && z.sweep.leftover == ViewOf(glob, y, y.down) && z.server.held == y.server.held
  {
    var z := SystemStep(glob, y, ServerTakes(batches, flown));
    StepKeepsInv(glob, y, ServerTakes(batches, flown));
    var r :| InProgress(glob, y, r);
    assert StillAsked(y, r) && r == q;
    ProgressUnderTake(glob, y, q, batches, flown);
  }

  lemma UntaintedStaysExact(glob: Glob, y: System, q: Query)
    requires Inv(glob, y) && Answering(glob, y, q) && y.sweep.leftover <= Matching(glob, q, y.server.held)
    ensures StaysExact(glob, y, q)
  {
    hide Inv, RunFrom, Matching;
    assert Untainted(glob, y, q);
    forall after: seq<Action> | (forall a | a in after :: !a.UserDoes?)
      ensures var r := RunFrom(glob, y, after);
        r.up == [] && r.down == [] ==> r.client.shown == Matching(glob, q, r.server.held)
    {
      RunStaysUntainted(glob, y, q, after);
      var r := RunFrom(glob, y, after);
      if r.up == [] && r.down == [] {
        UntaintedIsExact(glob, r, q);
      }
    }
  }

  /** So many deliveries and nothing else. */
  lemma {:induction false} DeliversSo(glob: Glob, y: System, q: Query, n: nat) returns (actions: seq<Action>)
    requires n <= |y.down| && Inv(glob, y) && Answering(glob, y, q)
    ensures forall a | a in actions :: a.Deliver?
    ensures var r := RunFrom(glob, y, actions);
      && Inv(glob, r) && Answering(glob, r, q)
      && r.up == y.up && r.down == y.down[n..] && r.server == y.server && r.sweep == y.sweep
  {
    if n == 0 {
      actions := [];
    } else {
      var most := DeliversSo(glob, y, q, n - 1);
      var r := RunFrom(glob, y, most);
      RunSnoc(glob, y, most, Deliver);
      actions := most + [Deliver];
      StepKeepsInv(glob, r, Deliver);
      DeliverKeepsProgress(glob, r, q);
      assert !StillAsked(SystemStep(glob, r, Deliver), q);
    }
  }

  /** What should not be there is there when the ping is answered and all is delivered. */
  lemma LeftoverStays(glob: Glob, y: System, q: Query)
    requires Inv(glob, y) && Answering(glob, y, q) && |y.up| <= 1
    requires !(y.sweep.leftover <= Matching(glob, q, y.server.held))
    ensures !StaysExact(glob, y, q)
  {
    var z := SystemStep(glob, y, ServerTakes([], 0));
    StepKeepsInv(glob, y, ServerTakes([], 0));
    assert Answering(glob, z, q) && z.up == [];
    var actions := DeliversSo(glob, z, q, |z.down|);
    hide Inv, InProgress, RunFrom;
    RunOfOne(glob, y, ServerTakes([], 0));
    RunAppend(glob, y, [ServerTakes([], 0)], actions);
    var r := RunFrom(glob, y, [ServerTakes([], 0)] + actions);
    assert r.up == [] && r.down == [] && r.client.shown == ViewOf(glob, r, r.down);
  }

  lemma RunOfOne(glob: Glob, y: System, a: Action)
    ensures RunFrom(glob, y, [a]) == SystemStep(glob, y, a)
  {
    assert [a][..0] == [];
  }

  lemma {:induction false} RunAppend(glob: Glob, y: System, a: seq<Action>, b: seq<Action>)
    ensures RunFrom(glob, y, a + b) == RunFrom(glob, RunFrom(glob, y, a), b)
  {
    hide SystemStep;
    if b == [] {
      assert a + b == a;
    } else {
      var last := |b| - 1;
      assert (a + b)[..|a + b| - 1] == a + b[..last];
      RunAppend(glob, y, a, b[..last]);
    }
  }

  // ----- What the re-check against the current query does not catch -----

  const ANY: Query := Query("*", "*", false)

  /** A client whose newest query is the n-th for everything. */
  function Asking(n: nat, shown: set<FileKey>, sweeping: bool): Client {
    Client(Connected, true, n, "*", "*", false, shown, shown, sweeping)
  }

  lemma RunSnoc(glob: Glob, y: System, actions: seq<Action>, a: Action)
    ensures RunFrom(glob, y, actions + [a]) == SystemStep(glob, RunFrom(glob, y, actions), a)
  {
    assert (actions + [a])[..|actions|] == actions;
  }

  /** The first query has been swept, but its results are still on their way. */
  lemma FirstQuerySwept(glob: Glob, k: FileKey) returns (actions: seq<Action>)
    requires Accepts(glob, "*", "*", k)
    ensures RunFrom(glob, AT_REST, actions) ==
      System(Asking(1, {}, true), [], [Items([], [k]), Pong(0)], Server(map[k := false], [ANY]), Sweep({k}, {}, {}))
  {
    hide RunFrom;
    var empty := Server(map[], []);
    var none := Sweep({}, {}, {});
    RunOfNothing(glob);
    actions := [];
    RunSnoc(glob, AT_REST, actions, UserDoes(Dialled(true)));
    actions := actions + [UserDoes(Dialled(true))];
    RunSnoc(glob, AT_REST, actions, UserDoes(LinkUp));
    actions := actions + [UserDoes(LinkUp)];
    assert RunFrom(glob, AT_REST, actions) == System(NEW_CLIENT.(link := Connected), [], [], empty, none);
    RunSnoc(glob, AT_REST, actions, NodeSet(k, false));
    actions := actions + [NodeSet(k, false)];
    RunSnoc(glob, AT_REST, actions, UserDoes(Started("*", "*")));
    actions := actions + [UserDoes(Started("*", "*"))];
    var held := Server(map[k := false], []);
    var y := System(Asking(1, {}, true), [Subscribe(ANY), Ping(0)], [], held, none);
    assert RunFrom(glob, AT_REST, actions) == y;
    TakesSweep(glob, y, k);
    RunSnoc(glob, AT_REST, actions, ServerTakes([[k]], 0));
    actions := actions + [ServerTakes([[k]], 0)];
    RunSnoc(glob, AT_REST, actions, ServerTakes([], 0));
    actions := actions + [ServerTakes([], 0)];
  }

  lemma RunOfNothing(glob: Glob)
    ensures RunFrom(glob, AT_REST, []) == AT_REST
  {
  }

  lemma TakesSweep(glob: Glob, y: System, k: FileKey)
    requires Accepts(glob, "*", "*", k) && y.server == Server(map[k := false], [])
    requires y.up == [Subscribe(ANY), Ping(0)] && y.down == [] && y.client.shown == {}
    ensures SystemStep(glob, y, ServerTakes([[k]], 0)) ==
      System(y.client, [Ping(0)], [Items([], [k])], Server(map[k := false], [ANY]), Sweep({k}, {}, {}))
  {
    assert [[k]][..0] == [];
    assert Union([]) == {} && Replies([]) == [];
    assert Union([[k]]) == {k} && Replies([[k]]) == [Items([], [k])];
    assert Matching(glob, ANY, y.server.held) == {k};
  }

  /** The same query again; this time the results have left the server before the jettison
      reaches it, and the node goes away while no subscription is in place. */
  lemma SecondQueryTakenUp(glob: Glob, k: FileKey, before: seq<Action>) returns (actions: seq<Action>)
    requires Accepts(glob, "*", "*", k)
    requires RunFrom(glob, AT_REST, before) ==
      System(Asking(1, {}, true), [], [Items([], [k]), Pong(0)], Server(map[k := false], [ANY]), Sweep({k}, {}, {}))
    ensures RunFrom(glob, AT_REST, actions) ==
      System(Asking(2, {}, true), [Ping(1)], [Items([], [k]), Pong(0)], Server(map[], [ANY]), Sweep({}, {}, {k}))
  {
    hide RunFrom;
    actions := before;
    var down := [Items([], [k]), Pong(0)];
    RunSnoc(glob, AT_REST, actions, UserDoes(Started("*", "*")));
    actions := actions + [UserDoes(Started("*", "*"))];
    RunSnoc(glob, AT_REST, actions, ServerTakes([], 0));
    actions := actions + [ServerTakes([], 0)];
    RunSnoc(glob, AT_REST, actions, ServerTakes([], 2));
    actions := actions + [ServerTakes([], 2)];
    assert down[..2] + PongsOnly(down[2..]) == down;
    assert RunFrom(glob, AT_REST, actions) ==
      System(Asking(2, {}, true), [Subscribe(ANY), Ping(1)], down, Server(map[k := false], []), Sweep({k}, {}, {}));
    RunSnoc(glob, AT_REST, actions, NodeRemoved(k));
    actions := actions + [NodeRemoved(k)];
    assert map[k := false] - {k} == map[];
    var y := System(Asking(2, {}, true), [Subscribe(ANY), Ping(1)], down, Server(map[], []), Sweep({k}, {}, {}));
    assert RunFrom(glob, AT_REST, actions) == y;
    TakesNothing(glob, y, k);
    RunSnoc(glob, AT_REST, actions, ServerTakes([], 0));
    actions := actions + [ServerTakes([], 0)];
  }

  lemma TakesNothing(glob: Glob, y: System, k: FileKey)
    requires Accepts(glob, "*", "*", k)
    requires y == System(Asking(2, {}, true), [Subscribe(ANY), Ping(1)], [Items([], [k]), Pong(0)], Server(map[], []),
                         Sweep({k}, {}, {}))
    ensures SystemStep(glob, y, ServerTakes([], 0)) ==
      System(y.client, [Ping(1)], y.down, Server(map[], [ANY]), Sweep({}, {}, {k}))
  {
    assert Union([]) == {} && Replies([]) == [] && Matching(glob, ANY, map[]) == {};
    ViewSnoc(glob, "*", "*", {}, [Items([], [k])], Pong(0));
    ViewSnoc(glob, "*", "*", {}, [], Items([], [k]));
    assert [Items([], [k])] + [Pong(0)] == y.down && [] + [Items([], [k])] == [Items([], [k])];
    assert Hits(glob, "*", "*", [k]) == {k};
  }

  /** A result of the replaced subscription that happens to match the new query passes the
      client's check, and if its node went away between the two subscriptions nobody will
      ever take it back: the view shows a file that no session has. */
  lemma StaleResultCanLinger(glob: Glob, k: FileKey)
    ensures Accepts(glob, "*", "*", k) ==> exists actions ::
      var y := After(glob, actions);
      && y.client.link.Connected? && y.client.queryActive && !y.client.sweeping
      && y.up == [] && y.down == [] && y.server.held == map[] && y.client.shown == {k}
  {
    if Accepts(glob, "*", "*", k) {
      var actions := StaleRun(glob, k);
      assert After(glob, actions).client.shown == {k};
    }
  }

  lemma StaleRun(glob: Glob, k: FileKey) returns (actions: seq<Action>)
    requires Accepts(glob, "*", "*", k)
    ensures RunFrom(glob, AT_REST, actions) ==
      System(Asking(2, {k}, false), [], [], Server(map[], [ANY]), Sweep({}, {}, {k}))
  {
    var first := FirstQuerySwept(glob, k);
    actions := SecondQueryTakenUp(glob, k, first);
    hide RunFrom;
    RunSnoc(glob, AT_REST, actions, ServerTakes([], 0));
    actions := actions + [ServerTakes([], 0)];
    RunSnoc(glob, AT_REST, actions, Deliver);
    actions := actions + [Deliver];
    assert Hits(glob, "*", "*", [k]) == {k};
    assert RunFrom(glob, AT_REST, actions) ==
      System(Asking(2, {k}, true), [], [Pong(0), Pong(1)], Server(map[], [ANY]), Sweep({}, {}, {k}));
    RunSnoc(glob, AT_REST, actions, Deliver);
    actions := actions + [Deliver];
    RunSnoc(glob, AT_REST, actions, Deliver);
    actions := actions + [Deliver];
  }
}
