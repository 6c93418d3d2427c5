// What the user list shows of a user, from the node events alone: each field is the one in
// the last node that carried it since the user was last gone.

module UserFields {

  import opened Prelude
  import opened UserMirror

  // ----- Which events are about a user -----

  /** A node of this user's own arrives: not a file, not one of ours, while the link is up. */
  ghost predicate IsTold(before: seq<Action>, a: Action, n: nat, id: SessionId) {
    && a.On? && a.connection == n && a.event.NodeUpdated?
    && a.event.path.sessionId == id != "" && a.event.path.depth >= 4 && a.event.path.depth != 5
    && var connections := After(before).connections;
    n in connections && connections[n].link.Connected? && connections[n].localSessionId != id
  }

  /** The user is gone: its session node or its name node, or our own session. */
  ghost predicate IsGone(before: seq<Action>, a: Action, n: nat, id: SessionId) {
    && a.On? && a.connection == n
    && match a.event
       case Dialled(_) => true
       case LinkLost => true
       case Quit => true
       case NodeRemoved(path) =>
         && path.sessionId == id
         && (path.depth == 2 || (path.depth == 4 && "name" <= path.nodeName))
         && n in After(before).connections && After(before).connections[n].link.Connected?
       case _ => false
  }

  /** There has been a node of the user's since it was last gone. */
  ghost predicate IsPresent(actions: seq<Action>, n: nat, id: SessionId) {
    actions != [] &&
      var before, a := actions[..|actions| - 1], actions[|actions| - 1];
      !IsGone(before, a, n, id) && (IsTold(before, a, n, id) || IsPresent(before, n, id))
  }

  /** The last value read from a node of the user's since it was last gone, if any. */
  ghost function Latest<T>(actions: seq<Action>, n: nat, id: SessionId, read: (NodePath, NodeData) -> Option<T>,
                           initial: T): T
  {
    if actions == [] then initial
    else
      var before, a := actions[..|actions| - 1], actions[|actions| - 1];
      if IsGone(before, a, n, id) then initial
      else if IsTold(before, a, n, id) && read(a.event.path, a.event.data).Some?
      then read(a.event.path, a.event.data).value
      else Latest(before, n, id, read, initial)
  }

  // ----- Which node carries which field -----

  function NameIn(path: NodePath, d: NodeData): Option<string> {
    if "name" <= path.nodeName then d.name else None
  }

  function HostIn(path: NodePath, d: NodeData): Option<string> {
    if "name" <= path.nodeName then Some(path.hostName) else None
  }

  function PortIn(path: NodePath, d: NodeData): Option<int> {
    if "name" <= path.nodeName then d.port else None
  }

  /** Name and number, or else what older clients send, of which classic BeShare is the one
      that begins with a digit. */
  function VersionIn(path: NodePath, d: NodeData): Option<string> {
    if !("name" <= path.nodeName) then None
    else if d.versionName.Some? && d.versionNumber.Some?
    then Some(d.versionName.value + " v" + d.versionNumber.value)
    else if d.legacyVersion.Some? && d.legacyVersion.value != "" && d.legacyVersion.value[0] in "0123456789"
    then Some("BeShare v" + d.legacyVersion.value)
    else d.legacyVersion
  }

  function StatusIn(path: NodePath, d: NodeData): Option<string> {
    if "userstatus" <= path.nodeName then d.status else None
  }

  function UploadsIn(path: NodePath, d: NodeData): Option<(nat, nat)> {
    if "uploadstats" <= path.nodeName && d.uploadsCurrent.Some? && d.uploadsMax.Some?
    then Some((d.uploadsCurrent.value, d.uploadsMax.value)) else None
  }

  function BandwidthIn(path: NodePath, d: NodeData): Option<(string, nat)> {
    if "bandwidth" <= path.nodeName && d.bandwidthLabel.Some? && d.bandwidthBits.Some?
    then Some((d.bandwidthLabel.value, d.bandwidthBits.value)) else None
  }

  function FileCountIn(path: NodePath, d: NodeData): Option<nat> {
    if "filecount" <= path.nodeName then d.fileCount else None
  }

  /** Files under "fires" are those of a client behind a firewall. */
  function FirewallIn(path: NodePath, d: NodeData): Option<bool> {
    if "fires" <= path.nodeName then Some(true) else if "files" <= path.nodeName then Some(false) else None
  }

  /** The record that the events add up to. */
  ghost function Expected(actions: seq<Action>, n: nat, id: SessionId): UserRecord {
    var uploads := Latest(actions, n, id, UploadsIn, (0, 0));
    var bandwidth := Latest(actions, n, id, BandwidthIn, ("", 0));
    UserRecord(id, Latest(actions, n, id, NameIn, ""), Latest(actions, n, id, HostIn, ""),
               Latest(actions, n, id, PortIn, 0), Latest(actions, n, id, VersionIn, ""),
               Latest(actions, n, id, StatusIn, ""), uploads.0, uploads.1, bandwidth.0, bandwidth.1,
               Latest(actions, n, id, FileCountIn, 0), Latest(actions, n, id, FirewallIn, false))
  }

  // ----- One event -----

  lemma {:induction false} NothingRead<T>(actions: seq<Action>, n: nat, id: SessionId,
                                          read: (NodePath, NodeData) -> Option<T>, initial: T)
    requires !IsPresent(actions, n, id)
    ensures Latest(actions, n, id, read, initial) == initial
  {
    if actions != [] {
      hide IsTold, IsGone;
      var before, a := actions[..|actions| - 1], actions[|actions| - 1];
      if !IsGone(before, a, n, id) {
        NothingRead(before, n, id, read, initial);
      }
    }
  }

  lemma NewUserExpected(actions: seq<Action>, n: nat, id: SessionId)
    requires !IsPresent(actions, n, id)
    ensures Expected(actions, n, id) == NewUser(id)
  {
    hide Latest, IsPresent;
    NothingRead(actions, n, id, NameIn, "");
    NothingRead(actions, n, id, HostIn, "");
    NothingRead(actions, n, id, PortIn, 0);
    NothingRead(actions, n, id, VersionIn, "");
    NothingRead(actions, n, id, StatusIn, "");
    NothingRead(actions, n, id, UploadsIn, (0, 0));
    NothingRead(actions, n, id, BandwidthIn, ("", 0));
    NothingRead(actions, n, id, FileCountIn, 0);
    NothingRead(actions, n, id, FirewallIn, false);
  }

  lemma LatestSnoc<T>(actions: seq<Action>, n: nat, id: SessionId, read: (NodePath, NodeData) -> Option<T>, initial: T)
    requires actions != [] && !IsGone(actions[..|actions| - 1], actions[|actions| - 1], n, id)
    ensures var before, a := actions[..|actions| - 1], actions[|actions| - 1];
      Latest(actions, n, id, read, initial)
      == if IsTold(before, a, n, id)
         then OrElse(read(a.event.path, a.event.data), Latest(before, n, id, read, initial))
         else Latest(before, n, id, read, initial)
  {
  }

  /** A node sets the fields it carries and no others. */
  lemma NodeSetsItsFields(u: UserRecord, path: NodePath, d: NodeData)
    ensures var r := Described(u, path, d).0;
      var uploads := OrElse(UploadsIn(path, d), (u.uploadsCurrent, u.uploadsMax));
      var bandwidth := OrElse(BandwidthIn(path, d), (u.bandwidthLabel, u.bandwidthBits));
      r == UserRecord(u.sessionId, OrElse(NameIn(path, d), u.userName), OrElse(HostIn(path, d), u.hostName),
                      OrElse(PortIn(path, d), u.port), OrElse(VersionIn(path, d), u.clientVersion),
                      OrElse(StatusIn(path, d), u.userStatus), uploads.0, uploads.1, bandwidth.0, bandwidth.1,
                      OrElse(FileCountIn(path, d), u.fileCount), OrElse(FirewallIn(path, d), u.isFirewalled))
  {
    var s := path.nodeName;
    assert "name" <= s ==> s[0] == 'n';
    assert "userstatus" <= s ==> s[0] == 'u' && s[1] == 's';
    assert "uploadstats" <= s ==> s[0] == 'u' && s[1] == 'p';
    assert "bandwidth" <= s ==> s[0] == 'b';
    assert "filecount" <= s ==> s[0] == 'f' && s[2] == 'l' && s[4] == 'c';
    assert "fires" <= s ==> s[0] == 'f' && s[2] == 'r';
    assert "files" <= s ==> s[0] == 'f' && s[2] == 'l' && s[4] == 's';
  }

  lemma ExpectedSnoc(actions: seq<Action>, n: nat, id: SessionId)
    requires actions != [] && !IsGone(actions[..|actions| - 1], actions[|actions| - 1], n, id)
    ensures var before, a := actions[..|actions| - 1], actions[|actions| - 1];
      Expected(actions, n, id)
      == if IsTold(before, a, n, id) then Described(Expected(before, n, id), a.event.path, a.event.data).0
         else Expected(before, n, id)
  {
    hide Latest, IsGone, IsTold, Described, NameIn, HostIn, PortIn, VersionIn, StatusIn, UploadsIn, BandwidthIn,
         FileCountIn, FirewallIn;
    LatestSnoc(actions, n, id, NameIn, "");
    LatestSnoc(actions, n, id, HostIn, "");
    LatestSnoc(actions, n, id, PortIn, 0);
    LatestSnoc(actions, n, id, VersionIn, "");
    LatestSnoc(actions, n, id, StatusIn, "");
    LatestSnoc(actions, n, id, UploadsIn, (0, 0));
    LatestSnoc(actions, n, id, BandwidthIn, ("", 0));
    LatestSnoc(actions, n, id, FileCountIn, 0);
    LatestSnoc(actions, n, id, FirewallIn, false);
    var before, a := actions[..|actions| - 1], actions[|actions| - 1];
    if IsTold(before, a, n, id) {
      ToldIsUpdate(before, a, n, id);
      NodeSetsItsFields(Expected(before, n, id), a.event.path, a.event.data);
    }
  }

  lemma ToldIsUpdate(before: seq<Action>, a: Action, n: nat, id: SessionId)
    requires IsTold(before, a, n, id)
    ensures a.On? && a.connection == n && a.event.NodeUpdated?
  {
  }

  // ----- Every run -----

  lemma {:induction false} PresentHasName(actions: seq<Action>, n: nat, id: SessionId)
    ensures IsPresent(actions, n, id) ==> id != ""
  {
    if actions != [] {
      hide IsGone;
      PresentHasName(actions[..|actions| - 1], n, id);
    }
  }

  /** What one event on a connection does to one user's entry in the registry. */
  lemma OneEvent(before: seq<Action>, e: Event, n: nat, id: SessionId)
    requires n in After(before).connections && (id == "" ==> id !in After(before).connections[n].users)
    ensures var c := After(before).connections[n];
      var r := ConnectionStep(c, e);
      if IsGone(before, On(n, e), n, id) then id !in r.users
      else if IsTold(before, On(n, e), n, id)
      then id in r.users
           && r.users[id] == Described(if id in c.users then c.users[id] else NewUser(id), e.path, e.data).0
      else (id in r.users <==> id in c.users) && (id in c.users ==> r.users[id] == c.users[id])
  {
    hide Described, After;
  }

  lemma ActsOnOne(before: seq<Action>, a: Action, n: nat)
    ensures var y, r := After(before), Step(After(before), a);
      && (a.On? && a.connection == n && n in y.connections ==>
            n in r.connections && r.connections[n] == ConnectionStep(y.connections[n], a.event))
      && (!(a.On? && a.connection == n) && n in y.connections ==>
            n in r.connections && r.connections[n] == y.connections[n])
      && (n !in y.connections && n in r.connections ==> r.connections[n] == NEW_CONNECTION && !a.On?)
      && (n !in y.connections && a.On? ==> n !in r.connections)
  {
    hide After, ConnectionStep;
  }

  lemma LastAct(actions: seq<Action>)
    requires actions != []
    ensures After(actions) == Step(After(actions[..|actions| - 1]), actions[|actions| - 1])
  {
  }

  /** The user list says what the nodes say: in every run a user is listed exactly if there
      has been a node of its own since it was last gone, and each field of it is the one
      in the last node that carried it since, or blank if none did. */
  lemma {:induction false} UsersAreAsLastTold(actions: seq<Action>, n: nat, id: SessionId)
    ensures var connections := After(actions).connections;
      if n in connections
      then (id in connections[n].users <==> IsPresent(actions, n, id))
           && (id in connections[n].users ==> connections[n].users[id] == Expected(actions, n, id))
      else !IsPresent(actions, n, id)
  {
    if actions != [] {
      hide After, Step, ConnectionStep, Described, Expected;
      var before, a := actions[..|actions| - 1], actions[|actions| - 1];
      LastAct(actions);
      ActsOnOne(before, a, n);
      UsersAreAsLastTold(before, n, id);
      PresentHasName(before, n, id);
      if !IsPresent(before, n, id) {
        NewUserExpected(before, n, id);
      }
      if !IsGone(before, a, n, id) {
        ExpectedSnoc(actions, n, id);
      }
      if a.On? && a.connection == n && n in After(before).connections {
        OneEvent(before, a.event, n, id);
      }
    }
  }

  // ----- The connection itself -----

  predicate CutsOff(a: Action, n: nat) {
    a.On? && a.connection == n && (a.event.LinkLost? || a.event.Quit? || a.event == Dialled(false))
  }

  /** The connection has been opened, a server dialled that could be reached, and nothing
      has cut it off since. */
  predicate IsDialled(actions: seq<Action>, n: nat) {
    actions != [] &&
      var before, a := actions[..|actions| - 1], actions[|actions| - 1];
      !CutsOff(a, n) && (IsDialled(before, n) || (a == On(n, Dialled(true)) && Opened(n) in before))
  }

  /** It has answered, too. */
  predicate IsUp(actions: seq<Action>, n: nat) {
    actions != [] &&
      var before, a := actions[..|actions| - 1], actions[|actions| - 1];
      && !CutsOff(a, n) && a != On(n, Dialled(true))
      && (IsUp(before, n) || (a == On(n, LinkUp) && IsDialled(before, n)))
  }

  /** Our own session ID, as assigned last since the link came up; blank before. */
  function OwnId(actions: seq<Action>, n: nat): SessionId {
    if actions == [] then ""
    else
      var before, a := actions[..|actions| - 1], actions[|actions| - 1];
      if CutsOff(a, n) || a == On(n, Dialled(true)) then ""
      else if a.On? && a.connection == n && a.event.SessionIdAssigned? && IsUp(before, n) then a.event.sessionId
      else OwnId(before, n)
  }

  lemma StepMovesLink(c: Connection, n: nat, e: Event)
    requires Registered(c)
    ensures var r := ConnectionStep(c, e);
      && (!r.link.Disconnected? <==> !CutsOff(On(n, e), n) && (!c.link.Disconnected? || e == Dialled(true)))
      && (r.link.Connected? <==>
            && !CutsOff(On(n, e), n) && e != Dialled(true)
            && (c.link.Connected? || (e == LinkUp && c.link.Connecting?)))
      && r.localSessionId
         == if CutsOff(On(n, e), n) || e == Dialled(true) then ""
            else if e.SessionIdAssigned? && c.link.Connected? then e.sessionId else c.localSessionId
  {
    hide Described;
  }

  lemma AllRegistered(actions: seq<Action>, n: nat)
    requires n in After(actions).connections
    ensures Registered(After(actions).connections[n])
  {
  }

  lemma {:induction false} UpIsDialled(actions: seq<Action>, n: nat)
    ensures IsUp(actions, n) ==> IsDialled(actions, n)
    ensures IsDialled(actions, n) ==> Opened(n) in actions
  {
    if actions != [] {
      UpIsDialled(actions[..|actions| - 1], n);
    }
  }

  predicate Fits(c: Connection, actions: seq<Action>, n: nat) {
    && (!c.link.Disconnected? <==> IsDialled(actions, n)) && (c.link.Connected? <==> IsUp(actions, n))
    && c.localSessionId == OwnId(actions, n)
  }

  lemma OwnEventFits(c: Connection, actions: seq<Action>, n: nat)
    requires actions != [] && Registered(c) && Fits(c, actions[..|actions| - 1], n)
    requires Opened(n) in actions[..|actions| - 1]
    requires actions[|actions| - 1].On? && actions[|actions| - 1].connection == n
    ensures Fits(ConnectionStep(c, actions[|actions| - 1].event), actions, n)
  {
    hide ConnectionStep, Registered, IsDialled, IsUp, OwnId, CutsOff;
    LastTold(actions, n);
    StepMovesLink(c, n, actions[|actions| - 1].event);
    UpIsDialled(actions[..|actions| - 1], n);
  }

  lemma OtherEventFits(c: Connection, actions: seq<Action>, n: nat)
    requires actions != [] && Fits(c, actions[..|actions| - 1], n)
    requires !(actions[|actions| - 1].On? && actions[|actions| - 1].connection == n)
    ensures Fits(c, actions, n)
  {
    LastTold(actions, n);
  }

  lemma {:induction false} UnopenedFits(actions: seq<Action>, n: nat)
    requires Opened(n) !in actions
    ensures Fits(NEW_CONNECTION, actions, n)
  {
    if actions != [] {
      hide IsDialled, IsUp, OwnId;
      UnopenedFits(actions[..|actions| - 1], n);
      LastTold(actions, n);
      UpIsDialled(actions[..|actions| - 1], n);
    }
  }

  /** A connection is as the events have left it: there once it has been opened; being set up
      or up exactly if it has been dialled, and up exactly if it has been answered, since
      it was last cut off; with our own session ID as assigned last since then. */
  lemma {:induction false} ConnectionIsAsTold(actions: seq<Action>, n: nat)
    ensures var connections := After(actions).connections;
      && (n in connections <==> Opened(n) in actions)
      && (n in connections ==>
            && (!connections[n].link.Disconnected? <==> IsDialled(actions, n))
            && (connections[n].link.Connected? <==> IsUp(actions, n))
            && connections[n].localSessionId == OwnId(actions, n))
  {
    if actions != [] {
      var before, a := actions[..|actions| - 1], actions[|actions| - 1];
      ConnectionIsAsTold(before, n);
      hide After, Step, ConnectionStep, Registered, IsDialled, IsUp, OwnId;
      LastAct(actions);
      ActsOnOne(before, a, n);
      OpenedOne(before, a, n);
      assert actions == before + [a];
      if n in After(before).connections {
        AllRegistered(before, n);
        if a.On? && a.connection == n {
          OwnEventFits(After(before).connections[n], actions, n);
        } else {
          OtherEventFits(After(before).connections[n], actions, n);
        }
      } else if a == Opened(n) {
        UnopenedFits(before, n);
        OtherEventFits(NEW_CONNECTION, actions, n);
      }
    }
  }

  lemma LastTold(actions: seq<Action>, n: nat)
    requires actions != []
    ensures var before, a := actions[..|actions| - 1], actions[|actions| - 1];
      var redials := a == On(n, Dialled(true));
      && (IsDialled(actions, n) <==> !CutsOff(a, n) && (IsDialled(before, n) || (redials && Opened(n) in before)))
      && (IsUp(actions, n) <==>
            !CutsOff(a, n) && !redials && (IsUp(before, n) || (a == On(n, LinkUp) && IsDialled(before, n))))
      && OwnId(actions, n)
         == if CutsOff(a, n) || redials then ""
            else if a.On? && a.connection == n && a.event.SessionIdAssigned? && IsUp(before, n)
            then a.event.sessionId
            else OwnId(before, n)
  {
  }

  lemma OpenedOne(before: seq<Action>, a: Action, n: nat)
    ensures n in Step(After(before), a).connections <==> n in After(before).connections || a == Opened(n)
  {
    hide After, ConnectionStep;
  }
}
