// The client's side of a live file query: one subscription at a time, a ping to learn
// when the first sweep is over, and a check of every result against the current query.
// Pattern matching itself is the uninterpreted relation glob(pattern, text).

module QueryProtocol {

  type Glob = (string, string) -> bool

  datatype Link = Disconnected | Connecting | Connected

  datatype FileKey = FileKey(sessionId: string, fileName: string)

  /** A subscription: filesOnly is what a firewalled client asks for. */
  datatype Query = Query(sessionPattern: string, filePattern: string, filesOnly: bool)

  datatype Command = Subscribe(query: Query) | Unsubscribe | Jettison | Ping(count: nat)

  datatype Reply = Items(removed: seq<FileKey>, added: seq<FileKey>) | Pong(count: int)

  /** The connection's query fields, and what its listener has been told: every result
      announced since the last clearing, those not taken back since, and whether the
      first sweep is under way. */
  datatype Client = Client(
    link: Link,
    queryActive: bool,
    pingCount: nat,
    sessionPattern: string,
    filePattern: string,
    firewalled: bool,
    announced: set<FileKey>,
    shown: set<FileKey>,
    sweeping: bool)

  function OrAny(pattern: string): string { if pattern == "" then "*" else pattern }

  predicate Accepts(glob: Glob, sessionPattern: string, filePattern: string, k: FileKey) {
    glob(sessionPattern, k.sessionId) && glob(filePattern, k.fileName)
  }

  function StopQuery(c: Client): Client {
    if !c.queryActive then c else c.(queryActive := false, announced := {}, shown := {}, sweeping := false)
  }

  function StopCommands(c: Client): seq<Command> {
    if c.queryActive && c.link.Connected? then [Unsubscribe, Jettison] else []
  }

  function StartQuery(c: Client, sessionPattern: string, filePattern: string): Client {
    if !c.link.Connected? then c
    else
      StopQuery(c).(queryActive := true, pingCount := c.pingCount + 1, sessionPattern := OrAny(sessionPattern),
                    filePattern := OrAny(filePattern), sweeping := true)
  }

  function AskedQuery(c: Client, sessionPattern: string, filePattern: string): Query {
    Query(OrAny(sessionPattern), OrAny(filePattern), c.firewalled)
  }

  function StartCommands(c: Client, sessionPattern: string, filePattern: string): seq<Command> {
    if !c.link.Connected? then []
    else StopCommands(c) + [Subscribe(AskedQuery(c, sessionPattern, filePattern)), Ping(c.pingCount)]
  }

  /** DisconnectFromServer, which is also the first thing ConnectToServer does. */
  function Disconnect(c: Client): Client {
    c.(link := Disconnected, queryActive := false, announced := {}, shown := {})
  }

  function Hits(glob: Glob, sessionPattern: string, filePattern: string, added: seq<FileKey>): set<FileKey> {
    set k | k in added && Accepts(glob, sessionPattern, filePattern, k)
  }

  function Elements<T>(s: seq<T>): set<T> { set x | x in s }

  function HandleItems(glob: Glob, c: Client, removed: seq<FileKey>, added: seq<FileKey>): Client {
    var kept := c.(shown := c.shown - Elements(removed));
    if !c.queryActive then kept
    else
      var hits := Hits(glob, c.sessionPattern, c.filePattern, added);
      kept.(announced := kept.announced + hits, shown := kept.shown + hits)
  }

  function HandlePong(c: Client, count: int): Client {
    if count >= c.pingCount - 1 then c.(sweeping := false) else c
  }

  function MessageReceived(glob: Glob, c: Client, m: Reply): Client {
    match m
    case Items(removed, added) => HandleItems(glob, c, removed, added)
    case Pong(count) => HandlePong(c, count)
  }

  // ----- Every run, whatever the server sends -----

  datatype Event =
    | Dialled(reachable: bool)
    | LinkUp
    | LinkLost
    | Quit
    | Started(sessionPattern: string, filePattern: string)
    | Stopped
    | FirewallSet(firewalled: bool)
    | Arrived(reply: Reply)

  function Step(glob: Glob, c: Client, e: Event): Client {
    match e
    case Dialled(reachable) => if reachable then Disconnect(c).(link := Connecting) else Disconnect(c)
    case LinkUp => if c.link.Connecting? then c.(link := Connected) else c
    case LinkLost => c.(link := Disconnected)
    case Quit => Disconnect(c)
    case Started(sessionPattern, filePattern) => StartQuery(c, sessionPattern, filePattern)
    case Stopped => StopQuery(c)
    case FirewallSet(firewalled) => c.(firewalled := firewalled)
    case Arrived(reply) => MessageReceived(glob, c, reply)
  }

  const NEW_CLIENT: Client := Client(Disconnected, false, 0, "", "", false, {}, {}, false)

  ghost predicate Unmixed(glob: Glob, c: Client) {
    && (!c.queryActive ==> c.announced == {})
    && c.shown <= c.announced
    && (forall k | k in c.announced :: Accepts(glob, c.sessionPattern, c.filePattern, k))
    && (c.link.Connecting? ==> !c.queryActive)
  }

  function After(glob: Glob, events: seq<Event>): Client {
    if events == [] then NEW_CLIENT else Step(glob, After(glob, events[..|events| - 1]), events[|events| - 1])
  }

  lemma {:induction false} RunStaysUnmixed(glob: Glob, events: seq<Event>)
    ensures Unmixed(glob, After(glob, events))
  {
    if events != [] {
      var last := |events| - 1;
      RunStaysUnmixed(glob, events[..last]);
    }
  }

  /** Queries never mix: after any run, with any replies in any order and from any earlier
      subscription, every result announced since the last clearing matches both patterns
      of the current query, and there are none when no query is active. */
  lemma {:induction false} QueriesNeverMix(glob: Glob, events: seq<Event>)
    ensures var c := After(glob, events);
      && (forall k | k in c.announced :: glob(c.sessionPattern, k.sessionId) && glob(c.filePattern, k.fileName))
      && (!c.queryActive ==> c.announced == {})
      && c.shown <= c.announced
  {
    var c := After(glob, events);
    RunStaysUnmixed(glob, events);
    assert forall k | k in c.announced :: Accepts(glob, c.sessionPattern, c.filePattern, k);
  }

  // ----- What the user asked for -----

  predicate CutsOff(e: Event) { e.Dialled? || e.LinkLost? || e.Quit? }

  /** The i-th event dials a server that can be reached, and nothing has cut the link since. */
  predicate Dials(events: seq<Event>, i: nat) {
    i < |events| && events[i] == Dialled(true) && forall k | i < k < |events| :: !CutsOff(events[k])
  }

  predicate Answered(events: seq<Event>, i: nat) {
    Dials(events, i) && exists j :: i < j < |events| && events[j] == LinkUp
  }

  lemma DialsSnoc(events: seq<Event>, i: nat)
    requires events != []
    ensures var before, e := events[..|events| - 1], events[|events| - 1];
      && (Dials(events, i) <==> (i == |before| && e == Dialled(true)) || (Dials(before, i) && !CutsOff(e)))
      && (Answered(events, i) <==> !CutsOff(e) && Dials(before, i) && (Answered(before, i) || e == LinkUp))
  {
    var before := events[..|events| - 1];
    assert forall k | 0 <= k < |before| :: before[k] == events[k];
  }

  /** In every run the link is being set up or up exactly if a server was dialled that could
      be reached and nothing has cut it off since, and up exactly if it has answered too. */
  lemma {:induction false} LinkIsAsDialled(glob: Glob, events: seq<Event>)
    ensures !After(glob, events).link.Disconnected? <==> exists i: nat :: Dials(events, i)
    ensures After(glob, events).link.Connected? <==> exists i: nat :: Answered(events, i)
  {
    if events != [] {
      var last := |events| - 1;
      var before, e := events[..last], events[last];
      LinkIsAsDialled(glob, before);
      LinkStep(glob, After(glob, before), e);
      hide After, Step, Dials, Answered;
      forall i: nat
        ensures Dials(events, i) <==> (i == last && e == Dialled(true)) || (Dials(before, i) && !CutsOff(e))
        ensures Answered(events, i) <==> !CutsOff(e) && Dials(before, i) && (Answered(before, i) || e == LinkUp)
      {
        DialsSnoc(events, i);
      }
      AnsweredDials(before);
      OneDials(before);
      assert e == Dialled(true) ==> Dials(events, last);
      if i: nat :| Dials(before, i) {
        assert !CutsOff(e) ==> Dials(events, i);
        assert Answered(events, i) <==> !CutsOff(e) && (Answered(before, i) || e == LinkUp);
      }
    }
  }

  lemma AnsweredDials(events: seq<Event>)
    ensures forall i: nat | Answered(events, i) :: Dials(events, i)
  {
  }

  lemma OneDials(events: seq<Event>)
    ensures forall i: nat, j: nat | Dials(events, i) && Dials(events, j) :: i == j
  {
  }

  lemma LinkStep(glob: Glob, c: Client, e: Event)
    ensures var r := Step(glob, c, e);
      && (r.link.Connected? <==> !CutsOff(e) && (c.link.Connected? || (e == LinkUp && c.link.Connecting?)))
      && (r.link.Connecting? <==> e == Dialled(true) || (c.link.Connecting? && !CutsOff(e) && e != LinkUp))
  {
  }

  /** Everything the client has sent in a run. */
  function Sent(glob: Glob, events: seq<Event>): seq<Command> {
    if events == [] then []
    else
      var before, e := events[..|events| - 1], events[|events| - 1];
      var c := After(glob, before);
      Sent(glob, before)
      + match e
        case Started(sessionPattern, filePattern) => StartCommands(c, sessionPattern, filePattern)
        case Stopped => StopCommands(c)
        case _ => []
  }

  /** The firewall setting in force: the one that was set last. */
  function LastFirewallSetting(events: seq<Event>): bool {
    if events == [] then false
    else if events[|events| - 1].FirewallSet? then events[|events| - 1].firewalled
    else LastFirewallSetting(events[..|events| - 1])
  }

  lemma {:induction false} FirewallIsLastSet(glob: Glob, events: seq<Event>)
    ensures After(glob, events).firewalled == LastFirewallSetting(events)
  {
    if events != [] {
      FirewallIsLastSet(glob, events[..|events| - 1]);
    }
  }

  /** The k-th event starts a query that is still the active one: the link was up then, and
      nothing has started, stopped, dialled or quit since with any effect on it. */
  ghost predicate StartsActive(glob: Glob, events: seq<Event>, k: nat) {
    && k < |events| && events[k].Started? && After(glob, events[..k]).link.Connected?
    && forall j | k < j < |events| ::
         && !events[j].Stopped? && !events[j].Dialled? && !events[j].Quit?
         && (events[j].Started? ==> !After(glob, events[..j]).link.Connected?)
  }

  /** An accepted result is one whose session and file name match what the user typed, each
      in its own box, and an empty box matches like a star. */
  predicate IsAskedFor(glob: Glob, sessionText: string, fileText: string, k: FileKey) {
    && glob(if sessionText == "" then "*" else sessionText, k.sessionId)
    && glob(if fileText == "" then "*" else fileText, k.fileName)
  }

  predicate Ends(c: Client, e: Event) {
    e.Stopped? || e.Dialled? || e.Quit? || (e.Started? && c.link.Connected?)
  }

  lemma StartsActiveSnoc(glob: Glob, events: seq<Event>, k: nat)
    requires events != []
    ensures var last := |events| - 1;
      var c, e := After(glob, events[..last]), events[last];
      StartsActive(glob, events, k) <==>
        if k == last then e.Started? && c.link.Connected?
        else StartsActive(glob, events[..last], k) && !Ends(c, e)
  {
    hide After;
    var last := |events| - 1;
    assert forall j | 0 <= j < last :: events[..last][..j] == events[..j] && events[..last][j] == events[j];
    if k < last {
      assert StartsActive(glob, events, k) ==> !Ends(After(glob, events[..last]), events[last]);
    }
  }

  /** The client's fields and the last two commands are those of the query asked for. */
  ghost predicate Follows(glob: Glob, events: seq<Event>, k: nat)
    requires k < |events| && events[k].Started?
  {
    var c, sent := After(glob, events), Sent(glob, events);
    var q := Query(OrAny(events[k].sessionPattern), OrAny(events[k].filePattern), LastFirewallSetting(events[..k]));
    && c.queryActive && c.sessionPattern == q.sessionPattern && c.filePattern == q.filePattern
    && |sent| >= 2 && sent[|sent| - 1].Ping? && sent[|sent| - 2] == Subscribe(q)
  }

  lemma StartFollows(glob: Glob, events: seq<Event>)
    requires events != [] && events[|events| - 1].Started?
    requires After(glob, events[..|events| - 1]).link.Connected?
    ensures Follows(glob, events, |events| - 1)
  {
    var last := |events| - 1;
    var c := After(glob, events[..last]);
    FirewallIsLastSet(glob, events[..last]);
    assert After(glob, events) == StartQuery(c, events[last].sessionPattern, events[last].filePattern);
    hide After, LastFirewallSetting;
    var asking := [Subscribe(AskedQuery(c, events[last].sessionPattern, events[last].filePattern)), Ping(c.pingCount)];
    assert Sent(glob, events) == (Sent(glob, events[..last]) + StopCommands(c)) + asking;
  }

  lemma StillFollows(glob: Glob, events: seq<Event>, k: nat)
    requires k + 1 < |events| && events[k].Started? && Follows(glob, events[..|events| - 1], k)
    requires !Ends(After(glob, events[..|events| - 1]), events[|events| - 1])
    ensures Follows(glob, events, k)
  {
    var last := |events| - 1;
    assert events[..last][..k] == events[..k];
    assert Sent(glob, events) == Sent(glob, events[..last]) + [];
  }

  lemma {:induction false} ActiveFollows(glob: Glob, events: seq<Event>)
    ensures After(glob, events).queryActive ==> exists k: nat :: StartsActive(glob, events, k)
    ensures forall k: nat | StartsActive(glob, events, k) ::
      k < |events| && events[k].Started? && Follows(glob, events, k)
  {
    if events != [] {
      hide StartsActive, Follows, Sent;
      var last := |events| - 1;
      ActiveFollows(glob, events[..last]);
      var c, e := After(glob, events[..last]), events[last];
      forall k: nat | StartsActive(glob, events, k)
        ensures k < |events| && events[k].Started? && Follows(glob, events, k)
      {
        StartsActiveSnoc(glob, events, k);
        StartedAt(glob, events, k);
        if k == last {
          StartFollows(glob, events);
        } else {
          StillFollows(glob, events, k);
        }
      }
      if After(glob, events).queryActive {
        if e.Started? && c.link.Connected? {
          StartsActiveSnoc(glob, events, last);
        } else {
          var k: nat :| StartsActive(glob, events[..last], k);
          StartedAt(glob, events[..last], k);
          StartsActiveSnoc(glob, events, k);
        }
      }
    }
  }

  lemma StartedAt(glob: Glob, events: seq<Event>, k: nat)
    requires StartsActive(glob, events, k)
    ensures k < |events| && events[k].Started?
  {
  }

  /** The active query, from the events alone: in every run a query is active exactly if
      one has been started with the link up and nothing has ended it since. All results
      announced match the two texts it was started with; and the last two commands sent
      are the subscription for these two texts, as firewalled as was set last before, and
      its ping. */
  lemma ActiveQueryIsAskedFor(glob: Glob, events: seq<Event>)
    ensures After(glob, events).queryActive <==> exists k: nat :: StartsActive(glob, events, k)
    ensures forall k: nat | StartsActive(glob, events, k) ::
      var sessionText, fileText := events[k].sessionPattern, events[k].filePattern;
      && (forall r | r in After(glob, events).announced :: IsAskedFor(glob, sessionText, fileText, r))
      && |Sent(glob, events)| >= 2 && Sent(glob, events)[|Sent(glob, events)| - 1].Ping?
      && Sent(glob, events)[|Sent(glob, events)| - 2]
         == Subscribe(Query(if sessionText == "" then "*" else sessionText, if fileText == "" then "*" else fileText,
                            LastFirewallSetting(events[..k])))
  {
    hide After, Sent;
    ActiveFollows(glob, events);
    QueriesNeverMix(glob, events);
  }

  // ----- The connection object -----

  lemma RemovedOneByOne(glob: Glob, c: Client, removed: seq<FileKey>, i: nat)
    requires i < |removed|
    ensures HandleItems(glob, HandleItems(glob, c, removed[..i], []), [removed[i]], [])
         == HandleItems(glob, c, removed[..i + 1], [])
  {
    assert removed[..i + 1] == removed[..i] + [removed[i]];
    assert Elements(removed[..i + 1]) == Elements(removed[..i]) + Elements([removed[i]]);
    assert Hits(glob, c.sessionPattern, c.filePattern, []) == {};
  }

  lemma AddedOneByOne(glob: Glob, c: Client, removed: seq<FileKey>, added: seq<FileKey>, i: nat)
    requires i < |added|
    ensures HandleItems(glob, HandleItems(glob, c, removed, added[..i]), [], [added[i]])
         == HandleItems(glob, c, removed, added[..i + 1])
  {
    assert added[..i + 1] == added[..i] + [added[i]];
    var sp, fp := c.sessionPattern, c.filePattern;
    assert Hits(glob, sp, fp, added[..i + 1]) == Hits(glob, sp, fp, added[..i]) + Hits(glob, sp, fp, [added[i]]);
  }

  lemma ItemsOneByOne(glob: Glob, c: Client, removed: seq<FileKey>, added: seq<FileKey>)
    ensures HandleItems(glob, c, [], []) == c
    ensures forall i | 0 <= i < |removed| ::
      HandleItems(glob, HandleItems(glob, c, removed[..i], []), [removed[i]], [])
      == HandleItems(glob, c, removed[..i + 1], [])
    ensures forall i | 0 <= i < |added| ::
      HandleItems(glob, HandleItems(glob, c, removed, added[..i]), [], [added[i]])
      == HandleItems(glob, c, removed, added[..i + 1])
  {
    forall i | 0 <= i < |removed|
      ensures HandleItems(glob, HandleItems(glob, c, removed[..i], []), [removed[i]], [])
           == HandleItems(glob, c, removed[..i + 1], [])
    {
      RemovedOneByOne(glob, c, removed, i);
    }
    forall i | 0 <= i < |added|
      ensures HandleItems(glob, HandleItems(glob, c, removed, added[..i]), [], [added[i]])
           == HandleItems(glob, c, removed, added[..i + 1])
    {
      AddedOneByOne(glob, c, removed, added, i);
    }
  }

  class ServerConnection {
    const glob: Glob
    var connectionState: Link
    var queryActive: bool
    var pingCount: nat
    var sessionMatcher: string
    var fileNameMatcher: string
    var firewalled: bool

    // What has gone out, and what the listener has been told.
    var sent: seq<Command>
    var announced: set<FileKey>
    var shown: set<FileKey>
    var sweeping: bool

    function State(): Client
      reads this
    {
      Client(connectionState, queryActive, pingCount, sessionMatcher, fileNameMatcher, firewalled, announced, shown,
             sweeping)
    }

    constructor (matches: Glob)
      ensures State() == NEW_CLIENT && sent == [] && glob == matches
    {
      glob := matches;
      connectionState, queryActive, pingCount, sessionMatcher, fileNameMatcher := Disconnected, false, 0, "", "";
      firewalled, sent, announced, shown, sweeping := false, [], {}, {}, false;
    }

    method Start(sessionExpression: string, fileExpression: string)
      modifies this
      ensures State() == StartQuery(old(State()), sessionExpression, fileExpression)
      ensures sent == old(sent) + StartCommands(old(State()), sessionExpression, fileExpression)
    {
      if !connectionState.Connected? {
        return;
      }
      Stop();
      sent := sent + [Subscribe(Query(OrAny(sessionExpression), OrAny(fileExpression), firewalled))];
      sent := sent + [Ping(pingCount)];
      pingCount := pingCount + 1;
      queryActive := true;
      sessionMatcher := if sessionExpression != "" then sessionExpression else "*";
      fileNameMatcher := if fileExpression != "" then fileExpression else "*";
      sweeping := true;
    }

    method Stop()
      modifies this
      ensures State() == StopQuery(old(State()))
      ensures sent == old(sent) + StopCommands(old(State()))
    {
      if !queryActive {
        return;
      }
      queryActive := false;
      if connectionState.Connected? {
        sent := sent + [Unsubscribe];
        sent := sent + [Jettison];
      }
      announced, shown := {}, {};
      sweeping := false;
    }

    method DisconnectFromServer()
      modifies this
      ensures State() == Disconnect(old(State())) && sent == old(sent)
    {
      queryActive := false;
      announced, shown := {}, {};
      if connectionState != Disconnected {
        connectionState := Disconnected;
      }
    }

    method ConnectToServer(reachable: bool)
      modifies this
      ensures State() == Step(glob, old(State()), Dialled(reachable)) && sent == old(sent)
    {
      DisconnectFromServer();
      if reachable {
        connectionState := Connecting;
      }
    }

    method HandleFileNode(key: FileKey)
      modifies this
      ensures State() == HandleItems(glob, old(State()), [], [key]) && sent == old(sent)
    {
      if !queryActive {
        return;
      }
      if !glob(sessionMatcher, key.sessionId) || !glob(fileNameMatcher, key.fileName) {
        return;
      }
      announced, shown := announced + {key}, shown + {key};
    }

    method HandleNodeRemoved(key: FileKey)
      modifies this
      ensures State() == HandleItems(glob, old(State()), [key], []) && sent == old(sent)
    {
      shown := shown - {key};
    }

    /** First the nodes that went away, then those added or changed. */
    method HandleDataItems(removed: seq<FileKey>, added: seq<FileKey>)
      modifies this
      ensures State() == HandleItems(glob, old(State()), removed, added) && sent == old(sent)
    {
      var before := State();
      ItemsOneByOne(glob, before, removed, added);
      for i := 0 to |removed|
        invariant State() == HandleItems(glob, before, removed[..i], []) && sent == old(sent)
      {
        hide HandleItems;
        HandleNodeRemoved(removed[i]);
      }
      assert removed[..|removed|] == removed;
      for i := 0 to |added|
        invariant State() == HandleItems(glob, before, removed, added[..i]) && sent == old(sent)
      {
        hide HandleItems;
        HandleFileNode(added[i]);
      }
      assert added[..|added|] == added;
    }

    method Receive(reply: Reply)
      modifies this
      ensures State() == MessageReceived(glob, old(State()), reply) && sent == old(sent)
    {
      match reply
      case Items(removed, added) => HandleDataItems(removed, added);
      case Pong(count) =>
        if count >= pingCount - 1 {
          sweeping := false;
        }
    }
  }
}
